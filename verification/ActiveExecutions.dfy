/**
 * `ActiveExecutions` as the object it is: a dictionary of mutable records, with settle handlers that hold on to the
 * record they were made for (packages/cli/src/active-executions.ts). Each method is the code between two awaits and is
 * proved against the step of `ExecutionTable` that it implements.
 */
module ActiveExecutions {
  import opened Common
  import opened ExecutionTable
  import opened TableInvariants
  import opened CallHistories
  import opened ConcurrencyControl
  import Slots = ConcurrencyQueue

  // ---------------------------------------------------------------------
  // Records by the call that installed them
  // ---------------------------------------------------------------------

  /** The dictionaries and the installed records are the same; calls that have not installed may differ. */
  ghost predicate SameEntries(p: Process, p': Process) {
    && p'.table == p.table && p'.responseModes == p.responseModes
    && (forall c: nat :: IsInstalled(p', c) <==> IsInstalled(p, c))
    && (forall c: nat :: IsInstalled(p, c) ==> p'.calls[c] == p.calls[c])
  }

  lemma SameRecordsEntries(p: Process, p': Process)
    requires SameRecords(p, p')
    ensures SameEntries(p, p')
  {
    forall c: nat ensures IsInstalled(p', c) <==> IsInstalled(p, c) {
      if c < |p.calls| { assert SameCall(p.calls[c], p'.calls[c]); }
    }
    forall c: nat | IsInstalled(p, c) ensures p'.calls[c] == p.calls[c] {
      assert SameCall(p.calls[c], p'.calls[c]);
    }
  }

  lemma SetPhaseEntries(p: Process, c: nat, phase: Phase)
    requires c < |p.calls| && !p.calls[c].phase.Installed? && !phase.Installed?
    ensures SameEntries(p, SetPhase(p, c, phase))
  {
  }

  lemma InstallMatches(p: Process, c: nat, now: int)
    requires QueuesMatch(p) && CanInstall(p, c)
    requires forall e :: e in p.table ==> EntryOk(p, e, p.table[e])
    ensures
      var p', e := Install(p, c, now), p.calls[c].execution;
      && (forall d: nat :: IsInstalled(p', d) <==> d == c || IsInstalled(p, d))
      && (forall d: nat :: IsInstalled(p, d) ==> RecordOf(p', d) == RecordOf(p, d))
      && RecordOf(p', c) == NewRecord(p, e, now)
      && QueuesMatch(p') && |p'.calls| == |p.calls| && p'.queues == p.queues && p'.enabled == p.enabled
      && p'.table == p.table[e := c] && p'.responseModes == p.responseModes
      && forall f :: f in p'.table ==> EntryOk(p', f, p'.table[f])
  {
    var p' := Install(p, c, now);
    InstallFollows(p, c, now);
    forall f | f in p'.table ensures EntryOk(p', f, p'.table[f]) {
      if f in p.table { assert EntryOk(p, f, p.table[f]); }
    }
  }

  /** A release is a `dequeue` on the queue of the mode, if there is one. */
  lemma ReleaseDequeues(p: Process, mode: Mode)
    ensures |Release(p, mode).calls| == |p.calls| && Release(p, mode).enabled == p.enabled
    ensures Release(p, mode).queues ==
            match QueueOf(p, mode)
            case None => p.queues
            case Some(q) => p.queues[q := Slots.Dequeued(p.queues[q])]
  {
  }

  // ---------------------------------------------------------------------
  // The loop of `shutdown`, one execution at a time
  // ---------------------------------------------------------------------

  /** The executions in `done` have been stopped. */
  ghost function CancelSome(p: Process, done: set<ExecutionId>): Process {
    p.(calls := seq(|p.calls|, c requires 0 <= c < |p.calls| =>
                      if p.calls[c].execution in done then CancelledCall(p, c) else p.calls[c]),
       table := map e | e in p.table && !(e in done && StatusIs(p, e, Waiting)) :: p.table[e],
       responseModes := map e | e in p.responseModes && !(e in done && StatusIs(p, e, Waiting)) :: p.responseModes[e])
  }

  lemma CancelNone(p: Process)
    ensures CancelSome(p, {}) == p
  {
    assert CancelSome(p, {}).calls == p.calls;
    assert CancelSome(p, {}).table == p.table;
    assert CancelSome(p, {}).responseModes == p.responseModes;
  }

  lemma CancelEvery(p: Process)
    requires EntriesOk(p)
    ensures CancelSome(p, p.table.Keys) == CancelAll(p)
  {
    assert CancelSome(p, p.table.Keys).calls == CancelAll(p).calls;
    assert CancelSome(p, p.table.Keys).table == CancelAll(p).table;
    assert CancelSome(p, p.table.Keys).responseModes == CancelAll(p).responseModes;
  }

  lemma CurrentBeforeCancel(p: Process, done: set<ExecutionId>, e: ExecutionId)
    requires EntriesOk(p) && e in p.table && e !in done
    ensures Current(CancelSome(p, done), e) == Current(p, e)
    ensures e in CancelSome(p, done).table && CancelSome(p, done).table[e] == p.table[e]
  {
    var c := p.table[e];
    assert EntryOk(p, e, c);
    assert CancelSome(p, done).calls[c] == p.calls[c];
  }

  lemma CancelOneCall(p: Process, done: set<ExecutionId>, e: ExecutionId, c: nat)
    requires EntriesOk(p) && e in p.table && e !in done && c < |p.calls|
    ensures c < |Stop(CancelSome(p, done), e).calls|
    ensures Stop(CancelSome(p, done), e).calls[c] == CancelSome(p, done + {e}).calls[c]
  {
    CurrentBeforeCancel(p, done, e);
    assert EntryOk(p, e, p.table[e]);
  }

  lemma CancelOneDictionaries(p: Process, done: set<ExecutionId>, e: ExecutionId)
    requires EntriesOk(p) && e in p.table && e !in done
    ensures Stop(CancelSome(p, done), e).table == CancelSome(p, done + {e}).table
    ensures Stop(CancelSome(p, done), e).responseModes == CancelSome(p, done + {e}).responseModes
  {
    CurrentBeforeCancel(p, done, e);
    assert EntryOk(p, e, p.table[e]);
    if !StatusIs(p, e, Waiting) {
      assert CancelSome(p, done + {e}).table == CancelSome(p, done).table;
      assert CancelSome(p, done + {e}).responseModes == CancelSome(p, done).responseModes;
    } else {
      assert CancelSome(p, done + {e}).table == CancelSome(p, done).table - {e};
      assert CancelSome(p, done + {e}).responseModes == CancelSome(p, done).responseModes - {e};
    }
  }

  lemma StopLeaves(p: Process, e: ExecutionId)
    ensures
      var p' := Stop(p, e);
      && p'.enabled == p.enabled && p'.limits == p.limits && p'.queues == p.queues && p'.latest == p.latest
      && |p'.calls| == |p.calls|
  {
  }

  lemma CancelOne(p: Process, done: set<ExecutionId>, e: ExecutionId)
    requires EntriesOk(p) && e in p.table && e !in done
    ensures Stop(CancelSome(p, done), e) == CancelSome(p, done + {e})
  {
    var p1, p2 := Stop(CancelSome(p, done), e), CancelSome(p, done + {e});
    forall c: nat | c < |p.calls| ensures c < |p1.calls| && p1.calls[c] == p2.calls[c] { CancelOneCall(p, done, e, c); }
    StopLeaves(CancelSome(p, done), e);
    CancelOneDictionaries(p, done, e);
    SameProcess(p1, p2);
  }

  /** The waiting and new ones among the executions in `done` have been let go. */
  ghost function LetGoSome(p: Process, done: set<ExecutionId>): Process {
    p.(table := map e | e in p.table && !(e in done && (StatusIs(p, e, Waiting) || StatusIs(p, e, New))) :: p.table[e])
  }

  lemma LetGoEvery(p: Process)
    ensures LetGoSome(p, {}) == p && LetGoSome(p, p.table.Keys) == LetGo(p)
  {
    assert LetGoSome(p, {}).table == p.table;
    assert LetGoSome(p, p.table.Keys).table == LetGo(p).table;
  }

  lemma LetGoOne(p: Process, done: set<ExecutionId>, e: ExecutionId)
    requires e in p.table && e !in done
    ensures Current(LetGoSome(p, done), e) == Current(p, e)
    ensures
      var gone := StatusIs(p, e, Waiting) || StatusIs(p, e, New);
      var before := LetGoSome(p, done);
      LetGoSome(p, done + {e}) == before.(table := if gone then before.table - {e} else before.table)
  {
    var gone := StatusIs(p, e, Waiting) || StatusIs(p, e, New);
    assert LetGoSome(p, done + {e}).table == if gone then LetGoSome(p, done).table - {e} else LetGoSome(p, done).table;
  }

  ghost function Visited(p: Process, cancelling: bool, done: set<ExecutionId>): Process {
    if cancelling then CancelSome(p, done) else LetGoSome(p, done)
  }

  ghost function VisitOne(p: Process, cancelling: bool, e: ExecutionId): Process {
    if cancelling then Stop(p, e)
    else if StatusIs(p, e, Waiting) || StatusIs(p, e, New) then p.(table := p.table - {e})
    else p
  }

  ghost function VisitInOrder(p: Process, cancelling: bool, order: seq<ExecutionId>): Process {
    if order == [] then p
    else VisitOne(VisitInOrder(p, cancelling, order[..|order| - 1]), cancelling, order[|order| - 1])
  }

  predicate NoRepeats(order: seq<ExecutionId>) {
    forall i, j :: 0 <= i < j < |order| ==> order[i] != order[j]
  }

  lemma VisitOneMore(p: Process, cancelling: bool, done: set<ExecutionId>, e: ExecutionId)
    requires EntriesOk(p) && e in p.table && e !in done
    ensures VisitOne(Visited(p, cancelling, done), cancelling, e) == Visited(p, cancelling, done + {e})
  {
    if cancelling { CancelOne(p, done, e); } else { LetGoOne(p, done, e); }
  }

  lemma VisitedNone(p: Process, cancelling: bool)
    ensures Visited(p, cancelling, {}) == p
  {
    CancelNone(p);
    LetGoEvery(p);
  }

  lemma {:induction false} OrderDoesNotMatter(p: Process, cancelling: bool, order: seq<ExecutionId>)
    requires EntriesOk(p) && NoRepeats(order) && forall e :: e in order ==> e in p.table
    ensures VisitInOrder(p, cancelling, order) == Visited(p, cancelling, set e | e in order)
    decreases |order|
  {
    if order == [] {
      VisitedNone(p, cancelling);
      assert (set e | e in order) == {};
    } else {
      var front, last := order[..|order| - 1], order[|order| - 1];
      var done := set e | e in front;
      OrderDoesNotMatter(p, cancelling, front);
      assert (set e | e in order) == done + {last};
      VisitOneMore(p, cancelling, done, last);
    }
  }

  ghost predicate Lists(order: seq<ExecutionId>, ids: set<ExecutionId>) {
    NoRepeats(order) && forall e :: e in order <==> e in ids
  }

  /** In whatever order the loop visits the executions, it comes to the same. */
  lemma VisitAll(p: Process, cancelling: bool, order: seq<ExecutionId>)
    requires EntriesOk(p) && Lists(order, p.table.Keys)
    ensures VisitInOrder(p, cancelling, order) == if cancelling then CancelAll(p) else LetGo(p)
  {
    assert (set e | e in order) == p.table.Keys;
    OrderDoesNotMatter(p, cancelling, order);
    CancelEvery(p);
    LetGoEvery(p);
  }

  /** `Object.keys`. */
  method KeysOf(ids: set<ExecutionId>) returns (order: seq<ExecutionId>)
    ensures Lists(order, ids)
  {
    order := [];
    var left := ids;
    while left != {}
      invariant left <= ids && Lists(order, ids - left)
      decreases |left|
    {
      var e :| e in left;
      order, left := order + [e], left - {e};
    }
  }

  lemma SameProcess(p: Process, q: Process)
    requires p.enabled == q.enabled && p.limits == q.limits && p.queues == q.queues && p.latest == q.latest
    requires p.calls == q.calls && p.table == q.table && p.responseModes == q.responseModes
    ensures p == q
  {
  }

  /** A reservation is an `enqueue` on the queue of the mode, if there is one. */
  lemma BeginEnqueues(p: Process, e: ExecutionId, mode: Mode, resume: bool)
    ensures |Begin(p, e, mode, resume).calls| == |p.calls| + 1 && Begin(p, e, mode, resume).enabled == p.enabled
    ensures Begin(p, e, mode, resume).queues ==
            match QueueOf(p, mode)
            case None => p.queues
            case Some(q) => p.queues[q := Slots.Enqueued(p.queues[q], Slots.Waiter(e, |p.calls|))]
    ensures Begin(p, e, mode, resume).calls[|p.calls|].phase.Reserved?
       <==> QueueOf(p, mode) == None || Slots.GrantsAtOnce(p.queues[QueueOf(p, mode).value])
  {
  }

  /** `IExecutingWorkflowData`. */
  class ExecutingWorkflow {
    const startedAt: int
    var responsePromise: Option<nat>
    var status: Status
    var postExecutePromise: Promise
    /** Whether the settle handler of `postExecutePromise` has run. */
    ghost var handled: bool

    ghost function View(): Record
      reads this
    {
      Record(startedAt, responsePromise, status, postExecutePromise, handled)
    }

    constructor (startedAt: int, responsePromise: Option<nat>)
      ensures View() == Record(startedAt, responsePromise, Running, Pending, false)
    {
      this.startedAt, this.responsePromise := startedAt, responsePromise;
      status, postExecutePromise, handled := Running, Pending, false;
    }

    /** `resolve` or `reject`: only the first call counts. */
    method SettlePromise(outcome: Promise)
      modifies this
      ensures View() == old(View()).(promise := Settle(old(View()).promise, outcome))
    {
      if postExecutePromise.Pending? { postExecutePromise := outcome; }
    }
  }

  class ActiveExecutions {
    var activeExecutions: map<ExecutionId, ExecutingWorkflow>
    var responseModes: map<ExecutionId, ResponseMode>
    const concurrencyControl: ConcurrencyControlService
    /** Whether executions run in this process; in queue mode the concurrency service is disabled from the start. */
    const regularMode: bool
    /** How many `add` calls have begun; stands for the promise that a throttled call awaits. */
    var begun: nat
    /** The history of the process, and the record that each call has installed. */
    ghost var history: Process
    ghost var records: map<nat, ExecutingWorkflow>

    ghost predicate RecordsAre(p: Process)
      reads this`records, records.Values
    {
      && (forall c: nat :: c in records <==> IsInstalled(p, c))
      && forall c: nat :: c in records && IsInstalled(p, c) ==> records[c].View() == RecordOf(p, c)
    }

    /** All records but one are as they should be. */
    ghost predicate OthersAre(p: Process, c: nat)
      reads this`records, records.Values
    {
      && (forall c: nat :: c in records <==> IsInstalled(p, c))
      && forall d: nat :: d in records && IsInstalled(p, d) && d != c ==> records[d].View() == RecordOf(p, d)
    }

    ghost predicate EachOnce()
      reads this`records
    {
      forall c: nat, d: nat :: c in records && d in records && c != d ==> records[c] != records[d]
    }

    ghost predicate TableIs(p: Process)
      reads this`activeExecutions, this`responseModes, this`records
    {
      && activeExecutions.Keys == p.table.Keys && responseModes == p.responseModes
      && (forall e :: e in p.table ==>
           EntryOk(p, e, p.table[e]) && p.table[e] in records && activeExecutions[e] == records[p.table[e]])
    }

    ghost predicate ControlIs(p: Process)
      reads this`begun, concurrencyControl, concurrencyControl.queues.Values
    {
      && concurrencyControl.Valid() && QueuesMatch(p) && begun == |p.calls|
      && concurrencyControl.isEnabled == p.enabled && (p.enabled ==> concurrencyControl.View() == p.queues)
      && (p.enabled ==> regularMode)
    }

    ghost predicate Valid()
      reads this, records.Values, concurrencyControl, concurrencyControl.queues.Values
    {
      RecordsAre(history) && EachOnce() && TableIs(history) && ControlIs(history)
    }

    lemma SameControl(p: Process, p': Process)
      requires ControlIs(p) && QueuesMatch(p')
      requires |p'.calls| == |p.calls| && p'.queues == p.queues && p'.enabled == p.enabled
      ensures ControlIs(p')
    {
    }

    ghost method SetHistory(p: Process)
      requires RecordsAre(p) && EachOnce() && TableIs(p) && ControlIs(p)
      modifies this`history
      ensures Valid() && history == p
    {
      history := p;
    }

    constructor (concurrencyControl: ConcurrencyControlService, limits: map<QueueType, nat>, regularMode: bool)
      requires concurrencyControl.Valid() && (concurrencyControl.isEnabled ==> regularMode)
      requires forall q :: q in concurrencyControl.View() ==> concurrencyControl.View()[q].waiting == []
      ensures Valid() && this.concurrencyControl == concurrencyControl && this.regularMode == regularMode
      ensures history == Process(concurrencyControl.isEnabled, limits, concurrencyControl.View(), [], map[], map[], map[])
    {
      this.concurrencyControl, this.regularMode := concurrencyControl, regularMode;
      activeExecutions, responseModes, records, begun := map[], map[], map[], 0;
      history := Process(concurrencyControl.isEnabled, limits, concurrencyControl.View(), [], map[], map[], map[]);
    }

    predicate Has(e: ExecutionId)
      reads this
    {
      e in activeExecutions
    }

    lemma CurrentIs(e: ExecutionId)
      requires Valid()
      ensures Has(e) <==> Current(history, e).Some?
      ensures Has(e) ==> activeExecutions[e].View() == Current(history, e).value
    {
    }

    /** Lookups by id see the current record and change nothing. */
    method GetStatus(e: ExecutionId) returns (status: Option<Status>)
      requires Valid()
      ensures status == if Current(history, e).Some? then Some(Current(history, e).value.status) else None
    {
      CurrentIs(e);
      if !Has(e) { return None; }
      status := Some(activeExecutions[e].status);
    }

    /** The record of one call has changed, and no other. */
    ghost method NoteRecord(c: nat)
      requires c in records && IsInstalled(history, c) && OthersAre(history, c)
      requires EachOnce() && TableIs(history) && ControlIs(history)
      modifies this`history
      ensures Valid() && history == SetRecord(old(history), c, records[c].View())
    {
      SetPhaseQueues(history, c, Installed(records[c].View()));
      SetHistory(SetRecord(history, c, records[c].View()));
    }

    method SetStatus(e: ExecutionId, status: Status) returns (found: bool)
      requires Valid()
      modifies this`history, records.Values
      ensures Valid() && found == Current(old(history), e).Some?
      ensures history == ExecutionTable.SetStatus(old(history), e, status)
    {
      CurrentIs(e);
      found := Has(e);
      if !found { return; }
      ghost var c := history.table[e];
      activeExecutions[e].status := status;
      assert OthersAre(history, c);
      NoteRecord(history.table[e]);
    }

    method AttachResponsePromise(e: ExecutionId, promise: nat) returns (found: bool)
      requires Valid()
      modifies this`history, records.Values
      ensures Valid() && found == Current(old(history), e).Some?
      ensures history == ExecutionTable.AttachResponsePromise(old(history), e, promise)
    {
      CurrentIs(e);
      found := Has(e);
      if !found { return; }
      ghost var c := history.table[e];
      activeExecutions[e].responsePromise := Some(promise);
      assert OthersAre(history, c);
      NoteRecord(history.table[e]);
    }

    method FinalizeExecution(e: ExecutionId)
      requires Valid()
      modifies this`history, records.Values
      ensures Valid() && history == Finalize(old(history), e)
    {
      CurrentIs(e);
      if !Has(e) { return; }
      activeExecutions[e].SettlePromise(Resolved);
      NoteRecord(history.table[e]);
    }

    method SetResponseMode(e: ExecutionId, mode: ResponseMode)
      requires Valid()
      modifies this`responseModes, this`history
      ensures Valid() && history == ExecutionTable.SetResponseMode(old(history), e, mode)
    {
      responseModes := responseModes[e := mode];
      TableQueues(history, ExecutionTable.SetResponseMode(history, e, mode));
      SetHistory(ExecutionTable.SetResponseMode(history, e, mode));
    }

    /** The entry and its response mode leave the dictionaries. */
    method Remove(e: ExecutionId)
      requires Valid()
      modifies this`activeExecutions, this`responseModes, this`history
      ensures Valid() && history == Forget(old(history), e)
      ensures activeExecutions == old(activeExecutions) - {e}
    {
      activeExecutions := activeExecutions - {e};
      responseModes := responseModes - {e};
      TableQueues(history, Forget(history, e));
      SetHistory(Forget(history, e));
    }

    method StopExecution(e: ExecutionId)
      requires Valid()
      modifies this`activeExecutions, this`responseModes, this`history, records.Values
      ensures Valid() && history == Stop(old(history), e)
    {
      CurrentIs(e);
      if !Has(e) { return; }
      if activeExecutions[e].status == Waiting {
        Remove(e);
      } else {
        activeExecutions[e].SettlePromise(Rejected);
        NoteRecord(history.table[e]);
      }
    }

    /** Calls have moved on without touching a record. */
    ghost method NoteCalls(p: Process)
      requires RecordsAre(history) && EachOnce() && TableIs(history)
      requires SameEntries(history, p) && ControlIs(p)
      modifies this`history
      ensures Valid() && history == p
    {
      SetHistory(p);
    }

    lemma BeginControl(e: ExecutionId, mode: Mode, resume: bool)
      requires begun == |history.calls| + 1 && concurrencyControl.Valid() && QueuesMatch(history)
      requires concurrencyControl.isEnabled == history.enabled && (history.enabled ==> regularMode)
      requires history.enabled ==> concurrencyControl.View() == Begin(history, e, mode, resume).queues
      ensures ControlIs(Begin(history, e, mode, resume))
      ensures SameEntries(history, Begin(history, e, mode, resume))
    {
      BeginKeeps(history, e, mode, resume);
      SameRecordsEntries(history, Begin(history, e, mode, resume));
    }

    /** `add` up to the database call: the reservation. */
    method Reserve(e: ExecutionId, mode: Mode, resume: bool) returns (granted: bool)
      requires Valid()
      modifies this`history, this`begun, concurrencyControl.queues.Values
      ensures Valid() && history == Begin(old(history), e, mode, resume)
      ensures granted == history.calls[|old(history.calls)|].phase.Reserved?
    {
      granted := concurrencyControl.Throttle(mode, e, begun);
      begun := begun + 1;
      BeginEnqueues(history, e, mode, resume);
      BeginControl(e, mode, resume);
      NoteCalls(Begin(history, e, mode, resume));
    }

    /** The slot goes back to the service, and the next queued call continues. */
    method ReleaseSlot(mode: Mode)
      requires Valid()
      modifies this`history, concurrencyControl.queues.Values
      ensures Valid() && history == Release(old(history), mode)
    {
      var next := concurrencyControl.Release(mode);
      ReleaseDequeues(history, mode);
      ReleaseKeeps(history, mode);
      SameRecordsEntries(history, Release(history, mode));
      NoteCalls(Release(history, mode));
    }

    /** A call that has its slot moves on: the database has answered, or the call throws. */
    ghost method NoteCall(c: nat, phase: Phase)
      requires Valid() && c < |history.calls| && !history.calls[c].phase.Queued?
      requires !history.calls[c].phase.Installed? && !phase.Installed?
      modifies this`history
      ensures Valid() && history == SetPhase(old(history), c, phase)
    {
      SetPhaseQueues(history, c, phase);
      SetPhaseEntries(history, c, phase);
      NoteCalls(SetPhase(history, c, phase));
    }

    /** The catch block of `add`. */
    method Reject(ghost c: nat, mode: Mode)
      requires Valid() && CanThrow(history, c) && history.calls[c].mode == mode
      modifies this`history, concurrencyControl.queues.Values
      ensures Valid() && history == Throw(old(history), c)
    {
      NoteCall(c, if history.calls[c].phase.Lost? then ThrewAlreadyResuming else ThrewDatabaseError);
      ReleaseSlot(mode);
    }

    ghost method AddRecord(c: nat, execution: ExecutingWorkflow, p: Process)
      requires c !in records && execution !in records.Values && EachOnce()
      requires (forall d: nat :: IsInstalled(p, d) <==> d == c || d in records) && execution.View() == RecordOf(p, c)
      requires forall d: nat :: d in records ==> records[d].View() == RecordOf(p, d)
      modifies this`records
      ensures EachOnce() && RecordsAre(p) && records == old(records)[c := execution]
    {
      records := records[c := execution];
    }

    /** The dictionary has a new record for the execution; `table` is the table before. */
    lemma TableGrows(c: nat, e: ExecutionId, table: map<ExecutionId, nat>, p: Process)
      requires p.table == table[e := c] && forall f :: f in p.table ==> EntryOk(p, f, p.table[f])
      requires activeExecutions.Keys == table.Keys + {e} && responseModes == p.responseModes
      requires c in records && activeExecutions[e] == records[c]
      requires forall f :: f in table && f != e ==> table[f] in records && activeExecutions[f] == records[table[f]]
      ensures TableIs(p)
    {
    }

    ghost method NoteInstall(c: nat, e: ExecutionId, execution: ExecutingWorkflow, table: map<ExecutionId, nat>,
                             p: Process)
      requires c !in records && execution !in records.Values && EachOnce()
      requires (forall d: nat :: IsInstalled(p, d) <==> d == c || d in records) && execution.View() == RecordOf(p, c)
      requires forall d: nat :: d in records ==> records[d].View() == RecordOf(p, d)
      requires p.table == table[e := c] && forall f :: f in p.table ==> EntryOk(p, f, p.table[f])
      requires activeExecutions.Keys == table.Keys + {e} && activeExecutions[e] == execution && responseModes == p.responseModes
      requires forall f :: f in table && f != e ==> table[f] in records && activeExecutions[f] == records[table[f]]
      requires ControlIs(p)
      modifies this`history, this`records
      ensures Valid() && history == p && records == old(records)[c := execution]
    {
      AddRecord(c, execution, p);
      TableGrows(c, e, table, p);
      SetHistory(p);
    }

    /** The start time and response promise of the entry, if any, are taken over. */
    method NewExecution(e: ExecutionId, now: int) returns (execution: ExecutingWorkflow)
      requires Valid()
      ensures fresh(execution) && execution.View() == NewRecord(history, e, now)
    {
      CurrentIs(e);
      execution := new ExecutingWorkflow(
        if Has(e) then activeExecutions[e].startedAt else now,
        if Has(e) then activeExecutions[e].responsePromise else None);
    }

    /** The rest of `add`: a new record replaces the entry. */
    method Install(ghost c: nat, e: ExecutionId, now: int) returns (execution: ExecutingWorkflow)
      requires Valid() && CanInstall(history, c) && history.calls[c].execution == e
      modifies this`activeExecutions, this`history, this`records
      ensures Valid() && history == ExecutionTable.Install(old(history), c, now)
      ensures fresh(execution) && records == old(records)[c := execution]
    {
      execution := NewExecution(e, now);
      InstallMatches(history, c, now);
      activeExecutions := activeExecutions[e := execution];
      SameControl(history, ExecutionTable.Install(history, c, now));
      NoteInstall(c, e, execution, history.table, ExecutionTable.Install(history, c, now));
    }

    /** The settle handler: it looks at the record it was made for, and deletes by id. */
    method OnSettled(ghost c: nat, execution: ExecutingWorkflow, e: ExecutionId, mode: Mode)
      requires Valid() && CanHandle(history, c) && c in records && records[c] == execution
      requires history.calls[c].execution == e && history.calls[c].mode == mode
      modifies this`activeExecutions, this`responseModes, this`history, execution, concurrencyControl.queues.Values
      ensures Valid() && history == Handle(old(history), c)
    {
      execution.handled := true;
      NoteRecord(c);
      ReleaseSlot(mode);
      if execution.status != Waiting { Remove(e); }
    }

    /** An entry leaves the dictionary, and its response mode stays behind. */
    method LetGoOf(e: ExecutionId)
      requires Valid()
      modifies this`activeExecutions, this`history
      ensures Valid() && history == old(history).(table := old(history).table - {e})
      ensures activeExecutions == old(activeExecutions) - {e}
    {
      activeExecutions := activeExecutions - {e};
      TableQueues(history, history.(table := history.table - {e}));
      SetHistory(history.(table := history.table - {e}));
    }

    /** The body of the loop. */
    method Visit(e: ExecutionId, cancelling: bool)
      requires Valid()
      modifies this`activeExecutions, this`responseModes, this`history, records.Values
      ensures Valid() && history == VisitOne(old(history), cancelling, e)
    {
      if cancelling {
        StopExecution(e);
      } else {
        var status := GetStatus(e);
        if status == Some(Waiting) || status == Some(New) { LetGoOf(e); }
      }
    }

    method VisitEach(executionIds: seq<ExecutionId>, cancelling: bool)
      requires Valid()
      modifies this`activeExecutions, this`responseModes, this`history, records.Values
      ensures Valid() && history == VisitInOrder(old(history), cancelling, executionIds)
    {
      ghost var p := history;
      var i := 0;
      while i < |executionIds|
        invariant i <= |executionIds| && Valid() && history == VisitInOrder(p, cancelling, executionIds[..i])
      {
        Visit(executionIds[i], cancelling);
        assert executionIds[..i + 1][..i] == executionIds[..i];
        i := i + 1;
      }
      assert executionIds[..i] == executionIds;
    }

    /** The service is disabled, unless it has been from the start, and every execution is visited. */
    method DisableAndVisit(cancelAll: bool) returns (executionIds: seq<ExecutionId>)
      requires Valid()
      modifies this`activeExecutions, this`responseModes, this`history, concurrencyControl, records.Values
      ensures Valid() && history == ExecutionTable.ShutdownPass(old(history), regularMode, cancelAll)
      ensures !concurrencyControl.isEnabled
    {
      if regularMode {
        concurrencyControl.Disable();
        TableQueues(history, history.(enabled := false));
        SetHistory(history.(enabled := false));
      }
      ghost var p := history;
      executionIds := KeysOf(activeExecutions.Keys);
      VisitEach(executionIds, regularMode && cancelAll);
      VisitAll(p, regularMode && cancelAll, executionIds);
    }

    /** `removeAll` on a disabled service. */
    method RemoveQueued(toCancel: seq<ExecutionId>) returns (cancelled: seq<ExecutionId>)
      requires Valid() && !concurrencyControl.isEnabled
      modifies concurrencyControl.queues.Values
      ensures Valid() && cancelled == [] && concurrencyControl.View() == old(concurrencyControl.View())
    {
      cancelled := concurrencyControl.RemoveAll(toCancel);
    }

    /**
     * `shutdown` up to the wait loop. `removeAll` gets the executions that were stopped, but the service is disabled by
     * then, or has been from the start: no queued execution is removed, and no row is cancelled.
     */
    method ShutdownPass(cancelAll: bool) returns (cancelled: seq<ExecutionId>)
      requires Valid()
      modifies this`activeExecutions, this`responseModes, this`history, records.Values
      modifies concurrencyControl, concurrencyControl.queues.Values
      ensures Valid() && history == ExecutionTable.ShutdownPass(old(history), regularMode, cancelAll)
      ensures cancelled == [] && concurrencyControl.View() == old(concurrencyControl.View())
    {
      var executionIds := DisableAndVisit(cancelAll);
      cancelled := RemoveQueued(if regularMode && cancelAll then executionIds else []);
    }
  }
}
