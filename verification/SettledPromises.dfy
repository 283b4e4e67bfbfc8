/**
 * How a record's promise settles: by a stop it is rejected, by an engine's end it is resolved, and whichever comes first
 * decides (packages/cli/src/active-executions.ts:195-244, 309-328).
 */
module SettledPromises {
  import opened Common
  import opened ExecutionTable
  import opened TableInvariants
  import opened ResumeProtocol
  import opened CallHistories

  predicate PromiseIs(p: Process, c: nat, promise: Promise) {
    IsInstalled(p, c) && RecordOf(p, c).promise == promise
  }

  // ---------------------------------------------------------------------
  // One operation
  // ---------------------------------------------------------------------

  /**
   * A stop rejects the promise of the current record when that is pending and the record not marked waiting; a settled
   * promise keeps its value. A waiting record is dropped with its response mode, its promise as it is. No other call changes.
   */
  lemma StopRejects(p: Process, e: ExecutionId)
    requires Current(p, e).Some?
    ensures
      var c, r, p' := p.table[e], Current(p, e).value, Stop(p, e);
      && |p'.calls| == |p.calls| && (forall d: nat :: d < |p.calls| && d != c ==> p'.calls[d] == p.calls[d])
      && IsInstalled(p', c)
      && (r.status != Waiting ==>
            && RecordOf(p', c) == r.(promise := if r.promise == Pending then Rejected else r.promise)
            && p'.table == p.table && p'.responseModes == p.responseModes)
      && (r.status == Waiting ==>
            RecordOf(p', c) == r && p'.table == p.table - {e} && p'.responseModes == p.responseModes - {e})
  {
  }

  /** Finalizing resolves the promise of the current record when it is pending, and does nothing else. */
  lemma FinalizeResolves(p: Process, e: ExecutionId)
    requires Current(p, e).Some?
    ensures
      var c, r, p' := p.table[e], Current(p, e).value, Finalize(p, e);
      && |p'.calls| == |p.calls| && (forall d: nat :: d < |p.calls| && d != c ==> p'.calls[d] == p.calls[d])
      && IsInstalled(p', c) && RecordOf(p', c) == r.(promise := if r.promise == Pending then Resolved else r.promise)
      && p'.table == p.table && p'.responseModes == p.responseModes
  {
  }

  /** A cancelling shutdown pass rejects every pending promise of a record in the table that is not marked waiting. */
  lemma PassRejects(p: Process, c: nat)
    ensures PromiseIs(ShutdownPass(p, true, true), c, Rejected)
       <==> PromiseIs(p, c, Rejected) || (PromiseIs(p, c, Pending) && InTable(p, c) && RecordOf(p, c).status != Waiting)
    ensures PromiseIs(ShutdownPass(p, true, true), c, Resolved) <==> PromiseIs(p, c, Resolved)
  {
    if c < |p.calls| { assert ShutdownPass(p, true, true).calls[c] == CancelledCall(p.(enabled := false), c); }
  }

  /** Any other pass leaves every record as it is: the entries that are marked waiting or new go, their response modes stay. */
  lemma PassLetsGo(p: Process, regularMode: bool, cancelAll: bool)
    requires !(regularMode && cancelAll)
    ensures
      var p' := ShutdownPass(p, regularMode, cancelAll);
      && p'.calls == p.calls && p'.responseModes == p.responseModes && p'.enabled == (p.enabled && !regularMode)
      && (forall e :: e in p'.table <==> e in p.table && !StatusIs(p, e, Waiting) && !StatusIs(p, e, New))
      && (forall e :: e in p'.table ==> p'.table[e] == p.table[e])
  {
  }

  /**
   * A new record runs, with its promise pending and its handler to run; it takes the start time and response promise of the
   * record it replaces, and starts now without a response promise when there is none.
   */
  lemma InstalledRecord(p: Process, c: nat, now: int)
    requires CanInstall(p, c)
    ensures
      var e, p' := p.calls[c].execution, Install(p, c, now);
      && Current(p', e).Some?
      && var r := Current(p', e).value;
      && r.status == Running && r.promise == Pending && !r.handled
      && (Current(p, e).None? ==> r.startedAt == now && r.responsePromise == None)
      && (Current(p, e).Some? ==>
            r.startedAt == Current(p, e).value.startedAt && r.responsePromise == Current(p, e).value.responsePromise)
  {
  }

  /** Setting a status by id changes the current record's status to it, and nothing else. */
  lemma StatusIsSet(p: Process, e: ExecutionId, status: Status)
    requires Current(p, e).Some?
    ensures
      var c, p' := p.table[e], SetStatus(p, e, status);
      && Current(p', e) == Some(Current(p, e).value.(status := status)) && p'.table == p.table
      && |p'.calls| == |p.calls| && (forall d: nat :: d < |p.calls| && d != c ==> p'.calls[d] == p.calls[d])
  {
  }

  // ---------------------------------------------------------------------
  // Every step
  // ---------------------------------------------------------------------

  /** The step is a stop or a cancelling shutdown that finds the record in the table, pending and not marked waiting. */
  predicate Rejects(s: System, l: Label, p: nat, c: nat) {
    && IsRecord(s, p, c) && InTable(s.procs[p], c)
    && RecordAt(s, p, c).promise == Pending && RecordAt(s, p, c).status != Waiting
    && (l == StopExecution(p, CallAt(s, p, c).execution) || l == Shutdown(p, true, true))
  }

  /**
   * The step is the end of an engine of the same execution, without a cancel-like error, that finds the record in the table
   * and pending.
   */
  predicate Resolves(s: System, l: Label, p: nat, c: nat) {
    && IsRecord(s, p, c) && InTable(s.procs[p], c) && RecordAt(s, p, c).promise == Pending
    && l.EndEngine? && l.p == p && l.outcome != Threw(true)
    && IsRecord(s, p, l.c) && CallAt(s, p, l.c).execution == CallAt(s, p, c).execution
  }

  predicate SamePromises(p: Process, p': Process, c: nat) {
    && (PromiseIs(p', c, Rejected) <==> PromiseIs(p, c, Rejected))
    && (PromiseIs(p', c, Resolved) <==> PromiseIs(p, c, Resolved))
  }

  lemma SameRecordsPromises(p: Process, p': Process, c: nat)
    requires SameRecords(p, p')
    ensures SamePromises(p, p', c)
  {
    if c < |p.calls| { assert SameCall(p.calls[c], p'.calls[c]); }
  }

  lemma HandlePromises(p: Process, d: nat, c: nat)
    requires QueuesMatch(p) && CanHandle(p, d)
    ensures SamePromises(p, Handle(p, d), c)
  {
    HandleIsRelease(p, d);
    HandleRecordQueues(p, d);
    ReleaseKeeps(HandleRecord(p, d), p.calls[d].mode);
    SameRecordsPromises(HandleRecord(p, d), Handle(p, d), c);
  }

  lemma PassPromises(p: Process, regularMode: bool, cancelAll: bool, c: nat)
    requires !(regularMode && cancelAll)
    ensures SamePromises(p, ShutdownPass(p, regularMode, cancelAll), c)
  {
    PassLetsGo(p, regularMode, cancelAll);
  }

  /** Moves that may settle a promise. */
  predicate Settles(m: Move) {
    m.Update? || m.StopById? || (m.Pass? && m.regularMode && m.cancelAll)
  }

  lemma MovePromises(p: Process, m: Move, c: nat)
    requires QueuesMatch(p) && Allowed(p, m) && !Settles(m)
    ensures SamePromises(p, Do(p, m), c)
  {
    match m {
      case BeginCall(e, mode, resume) =>
        BeginKeeps(p, e, mode, resume);
        SameRecordsPromises(p, Do(p, m), c);
      case ThrowCall(d) =>
        ThrowKeeps(p, d);
        SameRecordsPromises(p, Do(p, m), c);
      case HandleCall(d) => HandlePromises(p, d, c);
      case RemoveById(e, mode) =>
        RemoveQueuedKeeps(p, e, mode);
        SameRecordsPromises(p, Do(p, m), c);
      case Pass(regularMode, cancelAll) => PassPromises(p, regularMode, cancelAll, c);
      case _ =>
    }
  }

  /** What the step does to the promise. */
  predicate SettledAs(s: System, l: Label, p: nat, c: nat)
    requires Enabled(s, l) && p < |s.procs|
  {
    var s' := Apply(s, l);
    && p < |s'.procs|
    && (PromiseIs(s'.procs[p], c, Rejected) <==> PromiseIs(s.procs[p], c, Rejected) || Rejects(s, l, p, c))
    && (PromiseIs(s'.procs[p], c, Resolved) <==> PromiseIs(s.procs[p], c, Resolved) || Resolves(s, l, p, c))
  }

  /** The record is in the table, under the execution, with its promise pending. */
  predicate PendingUnder(p: Process, e: ExecutionId, c: nat) {
    InTable(p, c) && p.calls[c].execution == e && RecordOf(p, c).promise == Pending
  }

  lemma StopPromises(p: Process, e: ExecutionId, c: nat)
    requires EntriesOk(p)
    ensures PromiseIs(Stop(p, e), c, Rejected)
       <==> PromiseIs(p, c, Rejected) || (PendingUnder(p, e, c) && RecordOf(p, c).status != Waiting)
    ensures PromiseIs(Stop(p, e), c, Resolved) <==> PromiseIs(p, c, Resolved)
  {
    if Current(p, e).Some? {
      assert EntryOk(p, e, p.table[e]);
      StopRejects(p, e);
    }
  }

  lemma FinalizePromises(p: Process, e: ExecutionId, c: nat)
    requires EntriesOk(p)
    ensures PromiseIs(Finalize(p, e), c, Resolved) <==> PromiseIs(p, c, Resolved) || PendingUnder(p, e, c)
    ensures PromiseIs(Finalize(p, e), c, Rejected) <==> PromiseIs(p, c, Rejected)
  {
    if Current(p, e).Some? {
      assert EntryOk(p, e, p.table[e]);
      FinalizeResolves(p, e);
    }
  }

  /** What becomes of the process on which an engine ends. */
  lemma EndApplied(s: System, p: nat, c: nat, outcome: Outcome)
    requires Enabled(s, EndEngine(p, c, outcome))
    ensures
      var s' := Apply(s, EndEngine(p, c, outcome));
      && p < |s'.procs|
      && s'.procs[p] == if outcome == Threw(true) then s.procs[p] else Finalize(s.procs[p], CallAt(s, p, c).execution)
  {
  }

  lemma EndStep(s: System, p: nat, d: nat, outcome: Outcome, c: nat)
    requires Enabled(s, EndEngine(p, d, outcome)) && EntriesOk(s.procs[p])
    ensures SettledAs(s, EndEngine(p, d, outcome), p, c)
  {
    EndApplied(s, p, d, outcome);
    FinalizePromises(s.procs[p], CallAt(s, p, d).execution, c);
  }

  lemma StopStep(s: System, p: nat, e: ExecutionId, c: nat)
    requires Enabled(s, StopExecution(p, e)) && EntriesOk(s.procs[p])
    ensures SettledAs(s, StopExecution(p, e), p, c)
  {
    StopPromises(s.procs[p], e, c);
  }

  lemma PassStep(s: System, p: nat, c: nat)
    requires Enabled(s, Shutdown(p, true, true))
    ensures SettledAs(s, Shutdown(p, true, true), p, c)
  {
    PassRejects(s.procs[p], c);
  }

  lemma MarkStep(s: System, l: Label, c: nat)
    requires (l.MarkWaiting? || l.Attach?) && Enabled(s, l)
    ensures SettledAs(s, l, l.p, c)
  {
  }

  /** The steps that may change a record that is installed. */
  predicate MaySettle(l: Label) {
    l.StopExecution? || l.EndEngine? || l.MarkWaiting? || l.Attach? || (l.Shutdown? && l.regularMode && l.cancelAll)
  }

  lemma OtherMove(s: System, l: Label)
    requires Enabled(s, l) && ProcessOf(l).Some? && !MaySettle(l)
    ensures !Settles(MoveOf(s, l))
  {
  }

  lemma NothingSettled(s: System, l: Label, p: nat, c: nat)
    requires Enabled(s, l) && (ProcessOf(l) != Some(p) || !MaySettle(l))
    ensures !Rejects(s, l, p, c) && !Resolves(s, l, p, c)
  {
  }

  lemma OtherPromises(s: System, l: Label, p: nat, c: nat)
    requires AllQueuesMatch(s) && Enabled(s, l) && p < |s.procs| && (ProcessOf(l) != Some(p) || !MaySettle(l))
    ensures p < |Apply(s, l).procs| && SamePromises(s.procs[p], Apply(s, l).procs[p], c)
  {
    if ProcessOf(l) != Some(p) {
      OthersUntouched(s, l, p);
    } else {
      StepIsMove(s, l);
      OtherMove(s, l);
      MovePromises(s.procs[p], MoveOf(s, l), c);
    }
  }

  lemma OtherStep(s: System, l: Label, p: nat, c: nat)
    requires AllQueuesMatch(s) && Enabled(s, l) && p < |s.procs| && (ProcessOf(l) != Some(p) || !MaySettle(l))
    ensures SettledAs(s, l, p, c)
  {
    NothingSettled(s, l, p, c);
    OtherPromises(s, l, p, c);
  }

  /** In every step, a promise is rejected or resolved exactly by the steps that find it pending and in the table. */
  lemma StepSettlesExactlyWhen(s: System, l: Label, p: nat, c: nat)
    requires AllQueuesMatch(s) && Enabled(s, l) && p < |s.procs| && EntriesOk(s.procs[p])
    ensures SettledAs(s, l, p, c)
  {
    if ProcessOf(l) != Some(p) || !MaySettle(l) {
      OtherStep(s, l, p, c);
    } else {
      match l {
        case StopExecution(_, e) => StopStep(s, p, e, c);
        case EndEngine(_, d, outcome) => EndStep(s, p, d, outcome, c);
        case Shutdown(_, _, _) => PassStep(s, p, c);
        case _ => MarkStep(s, l, c);
      }
    }
  }

  // ---------------------------------------------------------------------
  // Every run
  // ---------------------------------------------------------------------

  /** Some step of the run rejects the promise. */
  predicate RejectedIn(s: System, ls: seq<Label>, p: nat, c: nat)
    requires CanRun(s, ls)
    decreases |ls|
  {
    ls != [] && (Rejects(s, ls[0], p, c) || RejectedIn(Apply(s, ls[0]), ls[1..], p, c))
  }

  predicate ResolvedIn(s: System, ls: seq<Label>, p: nat, c: nat)
    requires CanRun(s, ls)
    decreases |ls|
  {
    ls != [] && (Resolves(s, ls[0], p, c) || ResolvedIn(Apply(s, ls[0]), ls[1..], p, c))
  }

  lemma {:induction false} RunSettlesExactlyWhen(s: System, ls: seq<Label>, p: nat, c: nat)
    requires AllQueuesMatch(s) && CanRun(s, ls) && p < |s.procs| && EntriesOk(s.procs[p])
    ensures
      var s' := Run(s, ls);
      && p < |s'.procs|
      && (PromiseIs(s'.procs[p], c, Rejected) <==> PromiseIs(s.procs[p], c, Rejected) || RejectedIn(s, ls, p, c))
      && (PromiseIs(s'.procs[p], c, Resolved) <==> PromiseIs(s.procs[p], c, Resolved) || ResolvedIn(s, ls, p, c))
    decreases |ls|
  {
    if ls != [] {
      StepSettlesExactlyWhen(s, ls[0], p, c);
      StepQueues(s, ls[0]);
      StepFollows(s, ls[0], p);
      EntriesStay(s.procs[p], Apply(s, ls[0]).procs[p]);
      RunSettlesExactlyWhen(Apply(s, ls[0]), ls[1..], p, c);
    }
  }

  /**
   * From the start, in every run, stops, shutdowns and replacements included: a record's promise is rejected exactly when a
   * stop or a cancelling shutdown was the first to find it in the table pending and not marked waiting, and resolved exactly
   * when the end of an engine of its execution was the first to find it in the table pending.
   */
  lemma PromiseTellsWhoWasFirst(s: System, ls: seq<Label>, p: nat, c: nat)
    requires Init(s) && CanRun(s, ls) && p < |s.procs|
    ensures
      var s' := Run(s, ls);
      && p < |s'.procs|
      && (PromiseIs(s'.procs[p], c, Rejected) <==> RejectedIn(s, ls, p, c))
      && (PromiseIs(s'.procs[p], c, Resolved) <==> ResolvedIn(s, ls, p, c))
      && !(RejectedIn(s, ls, p, c) && ResolvedIn(s, ls, p, c))
  {
    forall r: nat | r < |s.procs| ensures QueuesMatch(s.procs[r]) { assert Fresh(s.procs[r]); }
    assert Fresh(s.procs[p]);
    RunSettlesExactlyWhen(s, ls, p, c);
  }
}
