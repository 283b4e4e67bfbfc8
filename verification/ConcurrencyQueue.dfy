/**
 * The concurrency queue that hands out execution slots
 * (packages/cli/src/concurrency/concurrency-queue.ts).
 */
module ConcurrencyQueue {
  import opened Common

  type ExecutionId = string

  /** A queued promise: the execution it was queued for, and the call that awaits it. */
  datatype Waiter = Waiter(executionId: ExecutionId, call: nat)

  /** `capacity` goes below zero by the number of queued promises. */
  datatype State = State(capacity: int, waiting: seq<Waiter>)

  function Enqueued(q: State, w: Waiter): State {
    State(q.capacity - 1, if q.capacity - 1 < 0 then q.waiting + [w] else q.waiting)
  }

  /** Whether the promise returned by `enqueue` resolves at once. */
  predicate GrantsAtOnce(q: State) {
    q.capacity - 1 >= 0
  }

  /** `resolveNext`: the head of the queue goes. */
  function NextResolved(q: State): State {
    if q.waiting == [] then q else q.(waiting := q.waiting[1..])
  }

  function Next(q: State): Option<Waiter> {
    if q.waiting == [] then None else Some(q.waiting[0])
  }

  function Dequeued(q: State): State {
    NextResolved(q.(capacity := q.capacity + 1))
  }

  /** The first queued promise of the execution, or the length. */
  function FindIndex(waiting: seq<Waiter>, id: ExecutionId): (i: nat)
    ensures i <= |waiting|
    ensures i < |waiting| ==> waiting[i].executionId == id
    ensures forall j :: 0 <= j < i ==> waiting[j].executionId != id
  {
    if waiting == [] || waiting[0].executionId == id then 0 else 1 + FindIndex(waiting[1..], id)
  }

  predicate Has(q: State, id: ExecutionId) {
    FindIndex(q.waiting, id) < |q.waiting|
  }

  function WithoutIndex(s: seq<Waiter>, i: nat): (r: seq<Waiter>)
    requires i < |s|
    ensures |r| == |s| - 1
  {
    s[..i] + s[i + 1..]
  }

  /** `remove` before it resolves the next one. */
  function Drop(q: State, id: ExecutionId): State {
    var i := FindIndex(q.waiting, id);
    if i < |q.waiting| then State(q.capacity + 1, WithoutIndex(q.waiting, i)) else q
  }

  function Removed(q: State, id: ExecutionId): State {
    if Has(q, id) then NextResolved(Drop(q, id)) else q
  }

  /** `getAll`: the executions in the queue, each once, in order of first appearance. */
  function Executions(waiting: seq<Waiter>): (r: seq<ExecutionId>)
    ensures forall id :: id in r <==> exists i :: 0 <= i < |waiting| && waiting[i].executionId == id
    ensures forall i, j :: 0 <= i < j < |r| ==> r[i] != r[j]
  {
    if waiting == [] then []
    else
      var last := |waiting| - 1;
      var front := Executions(waiting[..last]);
      if waiting[last].executionId in front then front else front + [waiting[last].executionId]
  }

  function RemovedEach(q: State, ids: seq<ExecutionId>): State
    decreases |ids|
  {
    if ids == [] then q else RemovedEach(Removed(q, ids[0]), ids[1..])
  }

  /** What `removeAll` does to one queue. */
  function AllRemoved(q: State): State {
    RemovedEach(q, Executions(q.waiting))
  }

  class Queue {
    var capacity: int
    var queue: seq<Waiter>

    ghost function View(): State
      reads this
    {
      State(capacity, queue)
    }

    constructor (capacity: int)
      ensures View() == State(capacity, [])
    {
      this.capacity, queue := capacity, [];
    }

    method Enqueue(w: Waiter) returns (granted: bool)
      modifies this
      ensures View() == Enqueued(old(View()), w)
      ensures granted == GrantsAtOnce(old(View()))
    {
      capacity := capacity - 1;
      granted := true;
      if capacity < 0 {
        queue := queue + [w];
        granted := false;
      }
    }

    method ResolveNext() returns (next: Option<Waiter>)
      modifies this
      ensures View() == NextResolved(old(View()))
      ensures next == Next(old(View()))
    {
      if |queue| == 0 { return None; }
      next := Some(queue[0]);
      queue := queue[1..];
    }

    method Dequeue() returns (next: Option<Waiter>)
      modifies this
      ensures View() == Dequeued(old(View()))
      ensures next == Next(old(View()))
    {
      capacity := capacity + 1;
      next := ResolveNext();
    }

    method GetAll() returns (ids: seq<ExecutionId>)
      ensures ids == Executions(queue)
    {
      ids := [];
      for i := 0 to |queue|
        invariant ids == Executions(queue[..i])
      {
        assert queue[..i + 1][..i] == queue[..i];
        if queue[i].executionId !in ids { ids := ids + [queue[i].executionId]; }
      }
      assert queue[..|queue|] == queue;
    }

    method Remove(id: ExecutionId) returns (next: Option<Waiter>)
      modifies this
      ensures View() == Removed(old(View()), id)
      ensures next == if Has(old(View()), id) then Next(Drop(old(View()), id)) else None
    {
      var index := 0;
      while index < |queue| && queue[index].executionId != id
        invariant index <= FindIndex(queue, id)
      {
        index := index + 1;
      }
      if index == |queue| { return None; }
      assert index == FindIndex(queue, id);
      queue := queue[..index] + queue[index + 1..];
      capacity := capacity + 1;
      next := ResolveNext();
    }
  }

  // ---------------------------------------------------------------------
  // Emptying a queue
  // ---------------------------------------------------------------------

  lemma {:induction false} RemovedEachAddsCapacity(q: State, ids: seq<ExecutionId>)
    ensures RemovedEach(q, ids).capacity >= q.capacity
    decreases |ids|
  {
    if ids != [] { RemovedEachAddsCapacity(Removed(q, ids[0]), ids[1..]); }
  }

  /** Emptying a queue leaves it as it is exactly when nobody waits. */
  lemma AllRemovedChangesExactlyWhen(q: State)
    ensures AllRemoved(q) != q <==> q.waiting != []
  {
    var ids := Executions(q.waiting);
    if q.waiting != [] {
      assert q.waiting[0].executionId in ids && ids != [] && ids[0] in ids;
      HasAppears(q, ids[0]);
      RemovedEachAddsCapacity(Removed(q, ids[0]), ids[1..]);
    }
  }

  lemma HasAppears(q: State, id: ExecutionId)
    ensures Has(q, id) <==> exists i :: 0 <= i < |q.waiting| && q.waiting[i].executionId == id
  {
  }

  predicate EachOnce(waiting: seq<Waiter>) {
    forall i, j :: 0 <= i < j < |waiting| ==> waiting[i].executionId != waiting[j].executionId
  }

  function Ids(waiting: seq<Waiter>): seq<ExecutionId> {
    seq(|waiting|, i requires 0 <= i < |waiting| => waiting[i].executionId)
  }

  lemma {:induction false} ExecutionsOfEachOnce(waiting: seq<Waiter>)
    requires EachOnce(waiting)
    ensures Executions(waiting) == Ids(waiting)
    decreases |waiting|
  {
    if waiting != [] {
      var last := |waiting| - 1;
      ExecutionsOfEachOnce(waiting[..last]);
      assert Ids(waiting) == Ids(waiting[..last]) + [waiting[last].executionId];
    }
  }

  /**
   * When no execution is queued twice, emptying a queue leaves nobody waiting, but only every other one is removed: each
   * removal lets the next one in.
   */
  lemma {:induction false} EmptyingLetsEveryOtherIn(q: State)
    requires EachOnce(q.waiting)
    ensures RemovedEach(q, Ids(q.waiting)) == State(q.capacity + (|q.waiting| + 1) / 2, [])
    decreases |q.waiting|
  {
    var w, ids := q.waiting, Ids(q.waiting);
    if |w| == 1 {
      assert Removed(q, ids[0]) == State(q.capacity + 1, []) && ids[1..] == [];
    } else if |w| > 1 {
      var rest := State(q.capacity + 1, w[2..]);
      assert Removed(q, ids[0]) == rest by { assert WithoutIndex(w, 0)[1..] == w[2..]; }
      assert !Has(rest, ids[1]) by { HasAppears(rest, ids[1]); }
      assert ids[1..][0] == ids[1] && ids[1..][1..] == Ids(w[2..]);
      EmptyingLetsEveryOtherIn(rest);
    }
  }

  lemma AllRemovedEmpties(q: State)
    requires EachOnce(q.waiting)
    ensures AllRemoved(q) == State(q.capacity + (|q.waiting| + 1) / 2, [])
  {
    ExecutionsOfEachOnce(q.waiting);
    EmptyingLetsEveryOtherIn(q);
  }

  /** An execution that is queued three times is still queued afterwards. */
  lemma AllRemovedLeavesRepeats(a: Waiter, b: Waiter, c: Waiter, capacity: int)
    requires a.executionId == b.executionId == c.executionId
    ensures AllRemoved(State(capacity, [a, b, c])) == State(capacity + 1, [c])
  {
    var w := [a, b, c];
    assert w[..2] == [a, b] && [a, b][..1] == [a] && [a][..0] == [];
    assert Executions([a]) == [a.executionId] && Executions([a, b]) == [a.executionId];
    assert Executions(w) == [a.executionId];
    assert WithoutIndex(w, 0) == [b, c] && [b, c][1..] == [c];
    assert Removed(State(capacity, w), a.executionId) == State(capacity + 1, [c]);
    assert [a.executionId][1..] == [] && RemovedEach(State(capacity + 1, [c]), []) == State(capacity + 1, [c]);
  }

  // ---------------------------------------------------------------------
  // Slots over whole runs
  // ---------------------------------------------------------------------

  datatype Event = Arrive(w: Waiter) | Leave | Cancel(id: ExecutionId)

  /**
   * The queue with a history: the slots in use, who got one, who arrived (and was not cancelled
   * while queued), and how many cancellations let somebody else in.
   */
  datatype Ledger = Ledger(limit: nat, q: State, held: nat, granted: seq<Waiter>, arrived: seq<Waiter>, overdraft: nat)

  function Start(limit: nat): Ledger {
    Ledger(limit, State(limit, []), 0, [], [], 0)
  }

  /** Only a holder of a slot leaves. */
  predicate Possible(l: Ledger, e: Event) {
    e.Leave? ==> l.held > 0
  }

  function Admit(l: Ledger, next: Option<Waiter>): Ledger {
    if next.Some? then l.(held := l.held + 1, granted := l.granted + [next.value]) else l
  }

  function After(l: Ledger, e: Event): Ledger
    requires Possible(l, e)
  {
    match e
    case Arrive(w) =>
      var l' := l.(q := Enqueued(l.q, w), arrived := l.arrived + [w]);
      if GrantsAtOnce(l.q) then Admit(l', Some(w)) else l'
    case Leave => Admit(l.(q := Dequeued(l.q), held := l.held - 1), Next(l.q))
    case Cancel(id) =>
      if !Has(l.q, id) then l
      else
        var dropped := Drop(l.q, id);
        var next := Next(dropped);
        var place := |l.granted| + FindIndex(l.q.waiting, id);
        Admit(l.(q := Removed(l.q, id),
                 arrived := if place < |l.arrived| then WithoutIndex(l.arrived, place) else l.arrived,
                 overdraft := l.overdraft + if next.Some? then 1 else 0), next)
  }

  predicate PossibleRun(l: Ledger, es: seq<Event>)
    decreases |es|
  {
    es == [] || (Possible(l, es[0]) && PossibleRun(After(l, es[0]), es[1..]))
  }

  function Run(l: Ledger, es: seq<Event>): Ledger
    requires PossibleRun(l, es)
    decreases |es|
  {
    if es == [] then l else Run(After(l, es[0]), es[1..])
  }

  /** What every step keeps. */
  predicate Balanced(l: Ledger) {
    && l.q.capacity == l.limit - l.held - |l.q.waiting|
    && (l.q.waiting != [] ==> l.held >= l.limit)
    && l.held <= l.limit + l.overdraft
    && l.arrived == l.granted + l.q.waiting
  }

  lemma MoveHead(a: seq<Waiter>, b: seq<Waiter>)
    requires b != []
    ensures (a + [b[0]]) + b[1..] == a + b
  {
  }

  lemma DropInside(a: seq<Waiter>, b: seq<Waiter>, i: nat)
    requires i < |b|
    ensures WithoutIndex(a + b, |a| + i) == a + WithoutIndex(b, i)
  {
  }

  lemma ArriveIsBalanced(l: Ledger, w: Waiter)
    requires Balanced(l)
    ensures Balanced(After(l, Arrive(w)))
  {
    assert (l.granted + l.q.waiting) + [w] == l.granted + (l.q.waiting + [w]);
    if GrantsAtOnce(l.q) { assert l.q.waiting == []; }
  }

  lemma LeaveIsBalanced(l: Ledger)
    requires Balanced(l) && Possible(l, Leave)
    ensures Balanced(After(l, Leave))
  {
    if l.q.waiting != [] { MoveHead(l.granted, l.q.waiting); }
  }

  lemma CancelIsBalanced(l: Ledger, id: ExecutionId)
    requires Balanced(l)
    ensures Balanced(After(l, Cancel(id)))
  {
    if Has(l.q, id) {
      var dropped := Drop(l.q, id);
      DropInside(l.granted, l.q.waiting, FindIndex(l.q.waiting, id));
      if dropped.waiting != [] { MoveHead(l.granted, dropped.waiting); }
    }
  }

  lemma BalancedStep(l: Ledger, e: Event)
    requires Balanced(l) && Possible(l, e)
    ensures Balanced(After(l, e))
  {
    match e {
      case Arrive(w) => ArriveIsBalanced(l, w);
      case Leave => LeaveIsBalanced(l);
      case Cancel(id) => CancelIsBalanced(l, id);
    }
  }

  /**
   * From an empty queue, in every run: capacity plus slots in use plus queued promises is the limit; nobody waits
   * beside a free slot; slots are granted in order of arrival; and the limit is exceeded by at most the number of
   * cancellations that let somebody else in.
   */
  lemma {:induction false} SlotsAreAccountedFor(l: Ledger, es: seq<Event>)
    requires Balanced(l) && PossibleRun(l, es)
    ensures Balanced(Run(l, es))
    decreases |es|
  {
    if es != [] {
      BalancedStep(l, es[0]);
      SlotsAreAccountedFor(After(l, es[0]), es[1..]);
    }
  }

  /** The number of cancellations in a run that find their execution queued with somebody else. */
  function Overtakes(l: Ledger, es: seq<Event>): nat
    requires PossibleRun(l, es)
    decreases |es|
  {
    if es == [] then 0
    else
      (if es[0].Cancel? && Has(l.q, es[0].id) && |l.q.waiting| > 1 then 1 else 0) + Overtakes(After(l, es[0]), es[1..])
  }

  lemma {:induction false} OverdraftCountsOvertakes(l: Ledger, es: seq<Event>)
    requires PossibleRun(l, es)
    ensures Run(l, es).overdraft == l.overdraft + Overtakes(l, es)
    decreases |es|
  {
    if es != [] { OverdraftCountsOvertakes(After(l, es[0]), es[1..]); }
  }

  /** Without such a cancellation the limit holds in every run. */
  lemma LimitHoldsWithoutOvertakes(limit: nat, es: seq<Event>)
    requires PossibleRun(Start(limit), es) && Overtakes(Start(limit), es) == 0
    ensures Run(Start(limit), es).held <= limit
  {
    SlotsAreAccountedFor(Start(limit), es);
    OverdraftCountsOvertakes(Start(limit), es);
    LimitIsKept(Start(limit), es);
  }

  lemma {:induction false} LimitIsKept(l: Ledger, es: seq<Event>)
    requires PossibleRun(l, es)
    ensures Run(l, es).limit == l.limit
    decreases |es|
  {
    if es != [] { LimitIsKept(After(l, es[0]), es[1..]); }
  }

  /**
   * A cancellation that finds the limit respected leaves it respected exactly when the execution is not queued
   * or is the only one queued: `remove` gives the dropped promise's place to the next one,
   * although the dropped promise never held a slot.
   */
  lemma CancellationRespectsLimitExactlyWhen(l: Ledger, id: ExecutionId)
    requires Balanced(l) && l.held <= l.limit
    ensures After(l, Cancel(id)).held <= l.limit <==> !(Has(l.q, id) && |l.q.waiting| > 1)
  {
  }

  /** One slot, three arrivals, the second cancelled: two executions run at once. */
  lemma CancellationExceedsLimit(a: Waiter, b: Waiter, c: Waiter)
    requires b.executionId != c.executionId
    ensures
      var es := [Arrive(a), Arrive(b), Arrive(c), Cancel(b.executionId)];
      PossibleRun(Start(1), es) && Run(Start(1), es).held == 2
  {
    var es := [Arrive(a), Arrive(b), Arrive(c), Cancel(b.executionId)];
    var l1 := After(Start(1), es[0]);
    var l2 := After(l1, es[1]);
    var l3 := After(l2, es[2]);
    assert l3.q.waiting == [b, c];
    var l4 := After(l3, es[3]);
    assert l4.held == 2;
    assert es[1..][1..][1..][1..] == [] && PossibleRun(l4, []) && Run(l4, []) == l4;
    assert es[1..][1..][1..] == [es[3]] && PossibleRun(l3, [es[3]]) && Run(l3, [es[3]]) == l4;
    assert es[1..][1..] == [es[2], es[3]] && PossibleRun(l2, [es[2], es[3]]) && Run(l2, [es[2], es[3]]) == l4;
    assert es[1..] == [es[1], es[2], es[3]] && PossibleRun(l1, es[1..]) && Run(l1, es[1..]) == l4;
  }
}
