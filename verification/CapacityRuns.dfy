/** Capacity over whole runs: no slot is lost and none is given back twice (packages/cli/src/active-executions.ts). */
module CapacityRuns {
  import opened Common
  import opened ExecutionTable
  import opened TableInvariants
  import opened ResumeProtocol
  import opened CallHistories
  import Slots = ConcurrencyQueue

  /** Balance does not depend on the table. */
  lemma TableBalances(p: Process, p': Process)
    requires CapacityBalanced(p) && p'.calls == p.calls && p'.queues == p.queues && p'.limits == p.limits && p'.enabled
    ensures CapacityBalanced(p')
  {
    TableQueues(p, p');
    forall q | q in p'.queues ensures Balanced(p', q) { assert Balanced(p, q); }
  }

  lemma InstallBalances(p: Process, c: nat, now: int)
    requires CapacityBalanced(p) && CanInstall(p, c)
    ensures CapacityBalanced(Install(p, c, now))
  {
    var phase := Installed(NewRecord(p, p.calls[c].execution, now));
    SameClaimBalances(p, c, phase);
    TableBalances(SetPhase(p, c, phase), Install(p, c, now));
  }

  lemma UpdateBalances(p: Process, e: ExecutionId, r: Record)
    requires CapacityBalanced(p) && Allowed(p, Update(e, r))
    ensures CapacityBalanced(UpdateCurrent(p, e, r))
  {
    SameClaimBalances(p, p.table[e], Installed(r));
  }

  lemma StopBalances(p: Process, e: ExecutionId)
    requires CapacityBalanced(p)
    ensures CapacityBalanced(Stop(p, e))
  {
    if Current(p, e).Some? {
      var r := Current(p, e).value;
      if r.status == Waiting {
        TableBalances(p, Forget(p, e));
      } else {
        UpdateBalances(p, e, r.(promise := Settle(r.promise, Rejected)));
      }
    }
  }

  lemma MoveBalances(p: Process, m: Move)
    requires CapacityBalanced(p) && Allowed(p, m) && !m.Pass?
    ensures CapacityBalanced(Do(p, m))
  {
    match m {
      case Stay =>
      case BeginCall(e, mode, resume) => BeginBalances(p, e, mode, resume);
      case Decide(c, phase) => SameClaimBalances(p, c, phase);
      case ThrowCall(c) => ThrowBalances(p, c);
      case InstallCall(c, now) => InstallBalances(p, c, now);
      case HandleCall(c) =>
        HandleIsRelease(p, c);
        HandleBalances(p, c);
      case Update(e, r) => UpdateBalances(p, e, r);
      case StopById(e) => StopBalances(p, e);
      case RemoveById(e, mode) => RemoveQueuedBalances(p, e, mode);
      case ModeById(e, responseMode) => TableBalances(p, SetResponseMode(p, e, responseMode));
      case Pass(regularMode, cancelAll) =>
    }
  }

  /** The process is not shut down in the run. */
  ghost predicate StaysUp(ls: seq<Label>, p: nat) {
    forall i :: 0 <= i < |ls| ==> !(ls[i].Shutdown? && ls[i].p == p)
  }

  lemma StepBalances(s: System, l: Label, p: nat)
    requires Enabled(s, l) && p < |s.procs| && !(l.Shutdown? && l.p == p) && CapacityBalanced(s.procs[p])
    ensures p < |Apply(s, l).procs| && CapacityBalanced(Apply(s, l).procs[p])
  {
    if ProcessOf(l) != Some(p) {
      OthersUntouched(s, l, p);
    } else {
      StepIsMove(s, l);
      MoveBalances(s.procs[p], MoveOf(s, l));
    }
  }

  /**
   * Whatever the order of `add`, resume, stop, removal from the queue, finalize and settle handlers, of this and of the
   * other processes: the limit of every queue is its capacity, plus the slots of the calls that have reserved one and
   * not given it back, plus the calls that wait for one.
   */
  lemma {:induction false} CapacityIsConserved(s: System, ls: seq<Label>, p: nat)
    requires CanRun(s, ls) && p < |s.procs| && CapacityBalanced(s.procs[p]) && StaysUp(ls, p)
    ensures p < |Run(s, ls).procs| && CapacityBalanced(Run(s, ls).procs[p])
    decreases |ls|
  {
    if ls != [] {
      assert !(ls[0].Shutdown? && ls[0].p == p);
      StepBalances(s, ls[0], p);
      assert StaysUp(ls[1..], p) by {
        forall i | 0 <= i < |ls[1..]| ensures !(ls[1..][i].Shutdown? && ls[1..][i].p == p) { assert ls[1..][i] == ls[i + 1]; }
      }
      CapacityIsConserved(Apply(s, ls[0]), ls[1..], p);
    }
  }

  lemma FreshIsBalanced(p: Process)
    requires Fresh(p) && p.enabled
    ensures CapacityBalanced(p)
  {
  }

  /** No call of the queue's modes has a slot or waits for one. */
  ghost predicate AllDone(p: Process, q: QueueType) {
    forall c: nat :: c < |p.calls| && QueueFor(p.calls[c].mode) == Some(q) ==>
      !HoldsSlot(p.calls[c], q) && !p.calls[c].phase.Queued?
  }

  lemma {:induction false} NothingHeld(calls: seq<Call>, q: QueueType)
    requires forall c: nat :: c < |calls| ==> !HoldsSlot(calls[c], q)
    ensures Held(calls, q) == 0
    decreases |calls|
  {
    if calls != [] { NothingHeld(calls[..|calls| - 1], q); }
  }

  /** From a fresh start: once every call has thrown, was dropped, or had its settle handler run, all capacity is back. */
  lemma CapacityComesBack(s: System, ls: seq<Label>, p: nat, q: QueueType)
    requires Init(s) && CanRun(s, ls) && p < |s.procs| && s.procs[p].enabled && StaysUp(ls, p)
    requires q in s.procs[p].queues && p < |Run(s, ls).procs| && AllDone(Run(s, ls).procs[p], q)
    ensures q in Run(s, ls).procs[p].queues && q in s.procs[p].limits
    ensures Run(s, ls).procs[p].queues[q] == Slots.State(s.procs[p].limits[q], [])
  {
    var proc := Run(s, ls).procs[p];
    assert Fresh(s.procs[p]);
    FreshIsBalanced(s.procs[p]);
    InitQueuesMatch(s);
    CapacityIsConserved(s, ls, p);
    RunFollows(s, ls, p);
    assert Balanced(proc, q);
    NothingHeld(proc.calls, q);
    if proc.queues[q].waiting != [] { WaitingFor(proc, q, proc.queues[q].waiting[0]); }
  }

  // ---------------------------------------------------------------------
  // The limit
  // ---------------------------------------------------------------------

  /** The capacity is below zero by no more than the number of queued promises: nobody has a slot beyond the limit. */
  predicate WithinLimit(p: Process, q: QueueType)
    requires q in p.queues
  {
    p.queues[q].capacity + |p.queues[q].waiting| >= 0
  }

  ghost predicate AllWithinLimit(p: Process) {
    forall q :: q in p.queues ==> WithinLimit(p, q)
  }

  /** Removing the execution from its queue lets somebody else in. */
  predicate Overtakes(p: Process, e: ExecutionId, mode: Mode) {
    QueueOf(p, mode).Some? &&
      var s := p.queues[QueueOf(p, mode).value];
      Slots.Has(s, e) && |s.waiting| > 1
  }

  lemma WithinLimitIsHeld(p: Process, q: QueueType)
    requires q in p.queues && Balanced(p, q)
    ensures WithinLimit(p, q) <==> Held(p.calls, q) <= p.limits[q]
  {
  }

  lemma DropQueues(p: Process, q: QueueType, e: ExecutionId)
    requires q in p.queues && Slots.Has(p.queues[q], e)
    ensures DropQueued(p, q, e).queues == p.queues[q := Slots.Drop(p.queues[q], e)]
  {
  }

  /** A removal is a `remove` on the queue of the mode, if there is one. */
  lemma RemoveRemoves(p: Process, e: ExecutionId, mode: Mode)
    requires QueuesMatch(p)
    ensures RemoveQueued(p, e, mode).queues ==
            match QueueOf(p, mode)
            case None => p.queues
            case Some(q) => p.queues[q := Slots.Removed(p.queues[q], e)]
  {
    if QueueOf(p, mode).Some? && Slots.Has(p.queues[QueueOf(p, mode).value], e) {
      var q := QueueOf(p, mode).value;
      var p1 := DropQueued(p, q, e);
      DropQueuedKeeps(p, q, e);
      DropQueues(p, q, e);
      ResolveNextQueues(p1, q);
      assert p1.queues[q := Slots.NextResolved(p1.queues[q])] == p.queues[q := Slots.Removed(p.queues[q], e)];
    }
  }

  /** What a removal does to the sum of capacity and queued promises. */
  lemma RemovedSum(s: Slots.State, e: ExecutionId)
    ensures
      var s' := Slots.Removed(s, e);
      s'.capacity + |s'.waiting| == s.capacity + |s.waiting| - if Slots.Has(s, e) && |s.waiting| > 1 then 1 else 0
  {
  }

  lemma RemoveWithinLimit(p: Process, e: ExecutionId, mode: Mode)
    requires QueuesMatch(p) && AllWithinLimit(p) && !Overtakes(p, e, mode)
    ensures AllWithinLimit(RemoveQueued(p, e, mode))
  {
    RemoveRemoves(p, e, mode);
    forall r | r in p.queues ensures WithinLimit(RemoveQueued(p, e, mode), r) {
      assert WithinLimit(p, r);
      RemovedSum(p.queues[r], e);
    }
  }

  lemma ReleaseWithinLimit(p: Process, mode: Mode)
    requires QueuesMatch(p) && AllWithinLimit(p)
    ensures AllWithinLimit(Release(p, mode))
  {
    if QueueOf(p, mode).Some? {
      var q := QueueOf(p, mode).value;
      AddCapacityKeeps(p, q);
      ResolveNextQueues(AddCapacity(p, q), q);
      assert WithinLimit(p, q);
      forall r | r in p.queues && r != q ensures WithinLimit(Release(p, mode), r) { assert WithinLimit(p, r); }
    }
  }

  lemma BeginWithinLimit(p: Process, e: ExecutionId, mode: Mode, resume: bool)
    requires AllWithinLimit(p)
    ensures AllWithinLimit(Begin(p, e, mode, resume))
  {
    forall r | r in p.queues ensures WithinLimit(Begin(p, e, mode, resume), r) { assert WithinLimit(p, r); }
  }

  lemma SameQueuesWithinLimit(p: Process, p': Process)
    requires AllWithinLimit(p) && p'.queues == p.queues
    ensures AllWithinLimit(p')
  {
    forall r | r in p'.queues ensures WithinLimit(p', r) { assert WithinLimit(p, r); }
  }

  lemma ThrowWithinLimit(p: Process, c: nat)
    requires QueuesMatch(p) && AllWithinLimit(p) && CanThrow(p, c)
    ensures AllWithinLimit(Throw(p, c))
  {
    var p1 := SetPhase(p, c, if p.calls[c].phase.Lost? then ThrewAlreadyResuming else ThrewDatabaseError);
    SetPhaseQueues(p, c, p1.calls[c].phase);
    SameQueuesWithinLimit(p, p1);
    ReleaseWithinLimit(p1, p.calls[c].mode);
  }

  lemma HandleWithinLimit(p: Process, c: nat)
    requires QueuesMatch(p) && AllWithinLimit(p) && CanHandle(p, c)
    ensures AllWithinLimit(Handle(p, c))
  {
    HandleIsRelease(p, c);
    HandleRecordQueues(p, c);
    SameQueuesWithinLimit(p, HandleRecord(p, c));
    ReleaseWithinLimit(HandleRecord(p, c), p.calls[c].mode);
  }

  lemma OtherMovesLeaveQueues(p: Process, m: Move)
    requires Allowed(p, m) && !m.BeginCall? && !m.ThrowCall? && !m.HandleCall? && !m.RemoveById?
    ensures Do(p, m).queues == p.queues
  {
  }

  lemma MoveWithinLimit(p: Process, m: Move)
    requires QueuesMatch(p) && AllWithinLimit(p) && Allowed(p, m) && (m.RemoveById? ==> !Overtakes(p, m.e, m.mode))
    ensures AllWithinLimit(Do(p, m))
  {
    match m {
      case BeginCall(e, mode, resume) => BeginWithinLimit(p, e, mode, resume);
      case ThrowCall(c) => ThrowWithinLimit(p, c);
      case HandleCall(c) => HandleWithinLimit(p, c);
      case RemoveById(e, mode) => RemoveWithinLimit(p, e, mode);
      case _ =>
        OtherMovesLeaveQueues(p, m);
        SameQueuesWithinLimit(p, Do(p, m));
    }
  }

  /** In the run no removal from a queue of the process lets somebody else in. */
  predicate NobodyOvertakes(s: System, ls: seq<Label>, p: nat)
    requires CanRun(s, ls)
    decreases |ls|
  {
    ls == [] ||
    (&& (ls[0].RemoveFromQueue? && ls[0].p == p && p < |s.procs| ==> !Overtakes(s.procs[p], ls[0].e, ls[0].mode))
     && NobodyOvertakes(Apply(s, ls[0]), ls[1..], p))
  }

  lemma {:induction false} RunWithinLimit(s: System, ls: seq<Label>, p: nat)
    requires AllQueuesMatch(s) && CanRun(s, ls) && p < |s.procs| && AllWithinLimit(s.procs[p]) && NobodyOvertakes(s, ls, p)
    ensures p < |Run(s, ls).procs| && AllWithinLimit(Run(s, ls).procs[p])
    decreases |ls|
  {
    if ls != [] {
      StepQueues(s, ls[0]);
      if ProcessOf(ls[0]) != Some(p) {
        OthersUntouched(s, ls[0], p);
      } else {
        StepIsMove(s, ls[0]);
        MoveWithinLimit(s.procs[p], MoveOf(s, ls[0]));
      }
      RunWithinLimit(Apply(s, ls[0]), ls[1..], p);
    }
  }

  lemma InitQueuesMatch(s: System)
    requires Init(s)
    ensures AllQueuesMatch(s)
  {
    forall r: nat | r < |s.procs| ensures QueuesMatch(s.procs[r]) { assert Fresh(s.procs[r]); }
  }

  /**
   * From a fresh start, before shutdown: the calls that hold a slot never exceed the limit of their queue in any run in
   * which no cancellation finds others queued beside its own execution.
   */
  lemma LimitHolds(s: System, ls: seq<Label>, p: nat, q: QueueType)
    requires Init(s) && CanRun(s, ls) && p < |s.procs| && s.procs[p].enabled && StaysUp(ls, p) && NobodyOvertakes(s, ls, p)
    requires p < |Run(s, ls).procs| && q in Run(s, ls).procs[p].queues
    ensures
      var proc := Run(s, ls).procs[p];
      q in proc.limits && Held(proc.calls, q) <= proc.limits[q]
  {
    assert Fresh(s.procs[p]);
    InitQueuesMatch(s);
    FreshIsBalanced(s.procs[p]);
    CapacityIsConserved(s, ls, p);
    RunWithinLimit(s, ls, p);
    var proc := Run(s, ls).procs[p];
    assert Balanced(proc, q) && WithinLimit(proc, q);
    WithinLimitIsHeld(proc, q);
  }

  /** A cancellation takes the queue over its limit exactly when the queue's slots are used up and it lets somebody else in. */
  lemma CancellationExceedsExactlyWhen(p: Process, e: ExecutionId, mode: Mode, q: QueueType)
    requires CapacityBalanced(p) && QueueOf(p, mode) == Some(q) && WithinLimit(p, q)
    ensures q in RemoveQueued(p, e, mode).queues
    ensures !WithinLimit(RemoveQueued(p, e, mode), q) <==> Overtakes(p, e, mode) && Held(p.calls, q) == p.limits[q]
  {
    assert Balanced(p, q);
    RemoveRemoves(p, e, mode);
    RemovedSum(p.queues[q], e);
  }

  // ---------------------------------------------------------------------
  // Which calls count against which limit
  // ---------------------------------------------------------------------

  /** The call has a slot, or would have one if its mode were limited. */
  predicate HasPlace(call: Call) {
    match call.phase
    case Reserved => true
    case Won => true
    case Lost => true
    case Failed => true
    case Installed(r) => !r.handled
    case _ => false
  }

  /** The calls of these modes that have a place. */
  function Placed(calls: seq<Call>, modes: set<Mode>): set<nat> {
    set c: nat | c < |calls| && calls[c].mode in modes && HasPlace(calls[c])
  }

  lemma PlacedStep(calls: seq<Call>, modes: set<Mode>)
    requires calls != []
    ensures
      var last := |calls| - 1;
      Placed(calls, modes)
        == Placed(calls[..last], modes) + if calls[last].mode in modes && HasPlace(calls[last]) then {last} else {}
  {
  }

  lemma {:induction false} PlacedAreHeld(calls: seq<Call>, modes: set<Mode>, q: QueueType)
    requires modes == if q == Production then {Webhook, Trigger, Chat} else {Evaluation}
    ensures |Placed(calls, modes)| == Held(calls, q)
    decreases |calls|
  {
    if calls != [] {
      PlacedStep(calls, modes);
      PlacedAreHeld(calls[..|calls| - 1], modes, q);
      assert calls[|calls| - 1].mode in modes <==> QueueFor(calls[|calls| - 1].mode) == Some(q);
    } else {
      assert Placed(calls, modes) == {};
    }
  }

  /**
   * From a fresh start, before shutdown, without overtaking cancellations: the webhook, trigger and chat calls that have a
   * place are never more than the production limit, and the evaluation calls never more than the evaluation limit.
   */
  lemma ModesStayWithinTheirLimits(s: System, ls: seq<Label>, p: nat)
    requires Init(s) && CanRun(s, ls) && p < |s.procs| && s.procs[p].enabled && StaysUp(ls, p) && NobodyOvertakes(s, ls, p)
    ensures
      p < |Run(s, ls).procs| &&
      var proc := Run(s, ls).procs[p];
      && proc.limits == s.procs[p].limits && proc.queues.Keys == s.procs[p].queues.Keys
      && (Production in proc.queues ==>
            Production in proc.limits && |Placed(proc.calls, {Webhook, Trigger, Chat})| <= proc.limits[Production])
      && (Evaluations in proc.queues ==>
            Evaluations in proc.limits && |Placed(proc.calls, {Evaluation})| <= proc.limits[Evaluations])
  {
    InitQueuesMatch(s);
    RunFollows(s, ls, p);
    var proc := Run(s, ls).procs[p];
    if Production in proc.queues {
      LimitHolds(s, ls, p, Production);
      PlacedAreHeld(proc.calls, {Webhook, Trigger, Chat}, Production);
    }
    if Evaluations in proc.queues {
      LimitHolds(s, ls, p, Evaluations);
      PlacedAreHeld(proc.calls, {Evaluation}, Evaluations);
    }
  }

  /** A call of any other mode reserves at once, and leaves the queues as they are; so does giving its slot back. */
  lemma OtherModesAreUnlimited(p: Process, e: ExecutionId, mode: Mode, resume: bool)
    requires mode in {Manual, Integrated, ErrorRun, Cli, Internal, Retry}
    ensures
      var p' := Begin(p, e, mode, resume);
      && p'.calls == p.calls + [Call(e, mode, resume, Reserved)] && p'.queues == p.queues
      && Release(p, mode) == p && RemoveQueued(p, e, mode) == p
  {
  }

  /** A limited call waits exactly when the service is enabled, its queue exists and has no free place. */
  lemma LimitedModesWaitExactlyWhen(p: Process, e: ExecutionId, mode: Mode, resume: bool, q: QueueType)
    requires mode in if q == Production then {Webhook, Trigger, Chat} else {Evaluation}
    ensures
      var p' := Begin(p, e, mode, resume);
      && |p'.calls| == |p.calls| + 1
      && (p'.calls[|p.calls|].phase.Queued? <==> p.enabled && q in p.queues && p.queues[q].capacity <= 0)
      && (forall r :: r in p.queues && r != q ==> r in p'.queues && p'.queues[r] == p.queues[r])
  {
    assert QueueFor(mode) == Some(q);
    BeginIsQueuedWhen(p, e, mode, resume, q);
  }

  lemma BeginIsQueuedWhen(p: Process, e: ExecutionId, mode: Mode, resume: bool, q: QueueType)
    requires QueueFor(mode) == Some(q)
    ensures
      var p' := Begin(p, e, mode, resume);
      && |p'.calls| == |p.calls| + 1
      && (p'.calls[|p.calls|].phase.Queued? <==> p.enabled && q in p.queues && p.queues[q].capacity <= 0)
      && (forall r :: r in p.queues && r != q ==> r in p'.queues && p'.queues[r] == p.queues[r])
  {
  }
}
