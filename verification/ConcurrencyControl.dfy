/** The concurrency control service of a process (packages/cli/src/concurrency/concurrency-control.service.ts). */
module ConcurrencyControl {
  import opened Common
  import opened ExecutionTable
  import Slots = ConcurrencyQueue

  type Views = map<QueueType, Slots.State>

  /** The queue of this type, if there is one and the service is enabled, takes in the caller; the other is as before. */
  predicate Enters(enabled: bool, before: Views, after: Views, q: QueueType, w: Slots.Waiter, granted: bool) {
    if enabled && q in before then
      && after == before[q := Slots.Enqueued(before[q], w)] && (granted <==> before[q].capacity >= 1)
    else granted && after == before
  }

  /** It gets a place back and lets the next one in; the other is as before. */
  predicate Leaves(enabled: bool, before: Views, after: Views, q: QueueType, next: Option<Slots.Waiter>) {
    if enabled && q in before then
      && after == before[q := Slots.Dequeued(before[q])]
      && next == (if before[q].waiting == [] then None else Some(before[q].waiting[0]))
    else next == None && after == before
  }

  class ConcurrencyControlService {
    var isEnabled: bool
    const queues: map<QueueType, Slots.Queue>

    /** Each type has a queue of its own. */
    ghost predicate Valid() {
      forall q, r :: q in queues && r in queues && q != r ==> queues[q] != queues[r]
    }

    ghost function View(): Views
      reads queues.Values
    {
      map q | q in queues :: queues[q].View()
    }

    /** One queue for each positive limit; in queue mode, or when nothing is limited, there is none. */
    constructor (limits: map<QueueType, int>, queueMode: bool)
      ensures Valid() && fresh(queues.Values)
      ensures isEnabled == (!queueMode && exists q :: q in limits && limits[q] > 0)
      ensures isEnabled ==> View() == map q | q in limits && limits[q] > 0 :: Slots.State(limits[q], [])
      ensures !isEnabled ==> View() == map[]
    {
      var enabled := !queueMode && exists q :: q in limits && limits[q] > 0;
      var made: map<QueueType, Slots.Queue> := map[];
      if enabled && Production in limits && limits[Production] > 0 {
        var production := new Slots.Queue(limits[Production]);
        made := made[Production := production];
      }
      if enabled && Evaluations in limits && limits[Evaluations] > 0 {
        var evaluations := new Slots.Queue(limits[Evaluations]);
        made := made[Evaluations := evaluations];
      }
      isEnabled, queues := enabled, made;
      new;
      if enabled {
        forall q ensures q in queues <==> q in limits && limits[q] > 0 {
          match q { case Production => case Evaluations => }
        }
        forall q | q in queues ensures queues[q].View() == Slots.State(limits[q], []) {
          match q { case Production => case Evaluations => }
        }
      }
    }

    /** A limit of zero is an error, whatever the mode; a negative one means no limit. */
    static method Create(limits: map<QueueType, int>, queueMode: bool) returns (r: Option<ConcurrencyControlService>)
      ensures r.None? <==> exists q :: q in limits && limits[q] == 0
      ensures r.Some? ==>
        && fresh(r.value) && r.value.Valid()
        && r.value.isEnabled == (!queueMode && exists q :: q in limits && limits[q] > 0)
        && r.value.View() == map q | q in limits && limits[q] > 0 && r.value.isEnabled :: Slots.State(limits[q], [])
    {
      if exists q :: q in limits && limits[q] == 0 { return None; }
      var service := new ConcurrencyControlService(limits, queueMode);
      r := Some(service);
    }

    /** The queue that a call of this mode goes through, if any. */
    function Limited(mode: Mode): Option<QueueType>
      reads this
    {
      if isEnabled && QueueFor(mode).Some? && QueueFor(mode).value in queues then QueueFor(mode) else None
    }

    method Throttle(mode: Mode, executionId: ExecutionId, call: nat) returns (granted: bool)
      requires Valid()
      modifies queues.Values
      ensures mode in {Webhook, Trigger, Chat} ==>
        Enters(isEnabled, old(View()), View(), Production, Slots.Waiter(executionId, call), granted)
      ensures mode == Evaluation ==>
        Enters(isEnabled, old(View()), View(), Evaluations, Slots.Waiter(executionId, call), granted)
      ensures mode in {Manual, Integrated, ErrorRun, Cli, Internal, Retry} ==> granted && View() == old(View())
      ensures Limited(mode) == None ==> granted && View() == old(View())
      ensures Limited(mode).Some? ==>
        var q, w := Limited(mode).value, Slots.Waiter(executionId, call);
        && q in old(View())
        && View() == old(View())[q := Slots.Enqueued(old(View())[q], w)]
        && granted == Slots.GrantsAtOnce(old(View())[q])
    {
      var limited := Limited(mode);
      if limited == None { return true; }
      granted := queues[limited.value].Enqueue(Slots.Waiter(executionId, call));
    }

    method Release(mode: Mode) returns (next: Option<Slots.Waiter>)
      requires Valid()
      modifies queues.Values
      ensures mode in {Webhook, Trigger, Chat} ==> Leaves(isEnabled, old(View()), View(), Production, next)
      ensures mode == Evaluation ==> Leaves(isEnabled, old(View()), View(), Evaluations, next)
      ensures mode in {Manual, Integrated, ErrorRun, Cli, Internal, Retry} ==> next == None && View() == old(View())
      ensures Limited(mode) == None ==> next == None && View() == old(View())
      ensures Limited(mode).Some? ==>
        var q := Limited(mode).value;
        && q in old(View())
        && View() == old(View())[q := Slots.Dequeued(old(View())[q])]
        && next == Slots.Next(old(View())[q])
    {
      var limited := Limited(mode);
      if limited == None { return None; }
      next := queues[limited.value].Dequeue();
    }

    method Disable()
      modifies this
      ensures !isEnabled
    {
      isEnabled := false;
    }

    /** One queue: every execution in it is removed in turn. */
    method RemoveEach(queue: Slots.Queue)
      modifies queue
      ensures queue.View() == Slots.AllRemoved(old(queue.View()))
    {
      ghost var q := queue.View();
      var ids := queue.GetAll();
      var i := 0;
      while i < |ids|
        invariant i <= |ids|
        invariant Slots.RemovedEach(queue.View(), ids[i..]) == Slots.AllRemoved(q)
      {
        assert ids[i..][0] == ids[i] && ids[i..][1..] == ids[i + 1..];
        var next := queue.Remove(ids[i]);
        i := i + 1;
      }
    }

    /** `cancelled` are the executions whose rows are cancelled. */
    method RemoveAll(executionIdsToCancel: seq<ExecutionId>) returns (cancelled: seq<ExecutionId>)
      requires Valid()
      modifies queues.Values
      ensures cancelled == if isEnabled then executionIdsToCancel else []
      ensures View() == AfterRemoveAll(isEnabled, old(View()))
    {
      if !isEnabled { return []; }
      if Production in queues { RemoveEach(queues[Production]); }
      if Evaluations in queues { RemoveEach(queues[Evaluations]); }
      cancelled := executionIdsToCancel;
      forall q | q in queues ensures queues[q].View() == Slots.AllRemoved(old(View())[q]) {
        match q { case Production => case Evaluations => }
      }
    }
  }

  /** What `removeAll` leaves in the queues. */
  function AfterRemoveAll(enabled: bool, views: Views): Views {
    if enabled then map q | q in views :: Slots.AllRemoved(views[q]) else views
  }

  /** It leaves the queues as they are exactly when the service is disabled or nobody waits. */
  lemma RemoveAllDoesNothingExactlyWhen(enabled: bool, views: Views)
    ensures AfterRemoveAll(enabled, views) == views <==> !enabled || forall q :: q in views ==> views[q].waiting == []
  {
    forall q | q in views ensures Slots.AllRemoved(views[q]) != views[q] <==> views[q].waiting != [] {
      Slots.AllRemovedChangesExactlyWhen(views[q]);
    }
    if enabled && AfterRemoveAll(enabled, views) == views {
      forall q | q in views ensures views[q].waiting == [] {
        assert AfterRemoveAll(enabled, views)[q] == Slots.AllRemoved(views[q]);
      }
    }
  }

  /**
   * When no execution is queued twice and somebody waits, `removeAll` empties every queue exactly when the service is
   * enabled.
   */
  lemma RemoveAllEmptiesExactlyWhen(enabled: bool, views: Views)
    requires forall q :: q in views ==> Slots.EachOnce(views[q].waiting)
    requires exists q :: q in views && views[q].waiting != []
    ensures (forall q :: q in views ==> AfterRemoveAll(enabled, views)[q].waiting == []) <==> enabled
  {
    forall q | q in views ensures Slots.AllRemoved(views[q]).waiting == [] { Slots.AllRemovedEmpties(views[q]); }
    if enabled {
      forall q | q in views ensures AfterRemoveAll(enabled, views)[q].waiting == [] {
        assert AfterRemoveAll(enabled, views)[q] == Slots.AllRemoved(views[q]);
      }
    }
  }
}
