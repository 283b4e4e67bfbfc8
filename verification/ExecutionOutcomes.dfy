/**
 * Every outcome of an engine settles the promise of its record, and what becomes of the record afterwards
 * (packages/cli/src/workflow-runner.ts:386-485, packages/cli/src/active-executions.ts:127-244).
 */
module ExecutionOutcomes {
  import opened Common
  import opened ExecutionTable
  import opened TableInvariants
  import opened ResumeProtocol
  import opened CallHistories
  import opened SingleEngine
  import opened ResumeSafety

  // ---------------------------------------------------------------------
  // The latest record and stale handlers
  // ---------------------------------------------------------------------

  /**
   * In every run from the start without shutdown and without a stop of a record that waits with its promise pending: an
   * execution whose latest promise is unsettled is in the table, under that record.
   */
  lemma UnsettledExecutionIsInTable(s: System, ls: seq<Label>, p: nat, e: ExecutionId)
    requires Init(s) && CanRun(s, ls) && CleanRun(s, ls)
    requires p < |Run(s, ls).procs| && e in Run(s, ls).procs[p].latest
    ensures
      var proc := Run(s, ls).procs[p];
      && EntryOk(proc, e, proc.latest[e])
      && (RecordOf(proc, proc.latest[e]).promise.Pending? ==> e in proc.table && proc.table[e] == proc.latest[e])
  {
    InitInv(s);
    RunKeepsInv(s, ls);
    var proc := Run(s, ls).procs[p];
    assert EntryOk(proc, e, proc.latest[e]) && RecordOk(proc, proc.latest[e]);
  }

  /** In such a run a settle handler removes its own record's entry, when that is not waiting, and no other. */
  lemma HandlerRemovesOnlyItsOwn(s: System, ls: seq<Label>, p: nat, c: nat)
    requires Init(s) && CanRun(s, ls) && CleanRun(s, ls) && p < |Run(s, ls).procs| && CanHandle(Run(s, ls).procs[p], c)
    ensures
      var proc := Run(s, ls).procs[p];
      var e := proc.calls[c].execution;
      var proc' := Handle(proc, c);
      && (RecordOf(proc, c).status == Waiting ==> proc'.table == proc.table && proc'.responseModes == proc.responseModes)
      && (RecordOf(proc, c).status != Waiting ==>
            && InTable(proc, c)
            && proc'.table == proc.table - {e} && proc'.responseModes == proc.responseModes - {e})
  {
    InitInv(s);
    RunKeepsInv(s, ls);
    var proc := Run(s, ls).procs[p];
    HandleIsRelease(proc, c);
    HandleRecordKeeps(proc, c);
    ReleaseKeeps(HandleRecord(proc, c), proc.calls[c].mode);
    if RecordOf(proc, c).status != Waiting { HandleDeletesOwnRecord(proc, c); }
  }

  // ---------------------------------------------------------------------
  // Orphans: records that have left the table unsettled
  // ---------------------------------------------------------------------

  ghost predicate Orphan(p: Process, c: nat) {
    IsInstalled(p, c) && RecordOf(p, c).promise.Pending? && forall e :: e in p.table ==> p.table[e] != c
  }

  lemma SameRecordsOrphan(p: Process, p': Process, c: nat)
    requires Orphan(p, c) && SameRecords(p, p')
    ensures Orphan(p', c) && RecordOf(p', c) == RecordOf(p, c)
  {
    assert SameCall(p.calls[c], p'.calls[c]);
  }

  lemma HandleOrphan(p: Process, d: nat, c: nat)
    requires QueuesMatch(p) && Orphan(p, c) && CanHandle(p, d)
    ensures Orphan(Handle(p, d), c) && RecordOf(Handle(p, d), c) == RecordOf(p, c)
  {
    HandleIsRelease(p, d);
    HandleRecordQueues(p, d);
    ReleaseKeeps(HandleRecord(p, d), p.calls[d].mode);
    SameRecordsOrphan(HandleRecord(p, d), Handle(p, d), c);
  }

  /** Another call's phase changes, and no entry is added but that call's. */
  lemma OtherPhaseOrphan(p: Process, d: nat, phase: Phase, p': Process, c: nat)
    requires Orphan(p, c) && d < |p.calls| && d != c && p'.calls == SetPhase(p, d, phase).calls
    requires forall e :: e in p'.table ==> (e in p.table && p'.table[e] == p.table[e]) || p'.table[e] == d
    ensures Orphan(p', c) && RecordOf(p', c) == RecordOf(p, c)
  {
  }

  lemma StopOrphan(p: Process, e: ExecutionId, c: nat)
    requires Orphan(p, c)
    ensures Orphan(Stop(p, e), c) && RecordOf(Stop(p, e), c) == RecordOf(p, c)
  {
    if Current(p, e).Some? && Current(p, e).value.status != Waiting {
      var r := Current(p, e).value;
      OtherPhaseOrphan(p, p.table[e], Installed(r.(promise := Settle(r.promise, Rejected))), Stop(p, e), c);
    }
  }

  lemma PassOrphan(p: Process, regularMode: bool, cancelAll: bool, c: nat)
    requires Orphan(p, c)
    ensures
      var p' := ShutdownPass(p, regularMode, cancelAll);
      Orphan(p', c) && RecordOf(p', c) == RecordOf(p, c)
  {
    if regularMode && cancelAll {
      assert ShutdownPass(p, regularMode, cancelAll).calls[c] == CancelledCall(p.(enabled := false), c);
    }
  }

  lemma MoveOrphan(p: Process, m: Move, c: nat)
    requires QueuesMatch(p) && Orphan(p, c) && Allowed(p, m)
    ensures Orphan(Do(p, m), c) && RecordOf(Do(p, m), c) == RecordOf(p, c)
  {
    match m {
      case BeginCall(e, mode, resume) =>
        BeginKeeps(p, e, mode, resume);
        SameRecordsOrphan(p, Do(p, m), c);
      case ThrowCall(d) =>
        ThrowKeeps(p, d);
        SameRecordsOrphan(p, Do(p, m), c);
      case Decide(d, phase) => OtherPhaseOrphan(p, d, phase, Do(p, m), c);
      case InstallCall(d, now) =>
        OtherPhaseOrphan(p, d, Installed(NewRecord(p, p.calls[d].execution, now)), Do(p, m), c);
      case HandleCall(d) => HandleOrphan(p, d, c);
      case Update(e, r) => OtherPhaseOrphan(p, p.table[e], Installed(r), Do(p, m), c);
      case StopById(e) => StopOrphan(p, e, c);
      case RemoveById(e, mode) =>
        RemoveQueuedKeeps(p, e, mode);
        SameRecordsOrphan(p, Do(p, m), c);
      case Pass(regularMode, cancelAll) => PassOrphan(p, regularMode, cancelAll, c);
      case _ =>
    }
  }

  /**
   * A record that has left the table unsettled stays unsettled in every continuation, its handler never runs, and so it
   * holds its slot for as long as the process lives.
   */
  lemma {:induction false} OrphanNeverSettles(s: System, ls: seq<Label>, p: nat, c: nat, q: QueueType)
    requires AllQueuesMatch(s) && CanRun(s, ls) && p < |s.procs|
    requires Orphan(s.procs[p], c) && HoldsSlot(s.procs[p].calls[c], q)
    ensures p < |Run(s, ls).procs| && Orphan(Run(s, ls).procs[p], c) && HoldsSlot(Run(s, ls).procs[p].calls[c], q)
    decreases |ls|
  {
    if ls != [] {
      StepQueues(s, ls[0]);
      StepFollows(s, ls[0], p);
      if ProcessOf(ls[0]) != Some(p) {
        OthersUntouched(s, ls[0], p);
      } else {
        StepIsMove(s, ls[0]);
        MoveOrphan(s.procs[p], MoveOf(s, ls[0]), c);
      }
      OrphanNeverSettles(Apply(s, ls[0]), ls[1..], p, c, q);
    }
  }

  /** Stopping an execution leaves its record unsettled exactly when the record waits with its promise pending. */
  lemma StopOrphansExactlyWhen(p: Process, e: ExecutionId)
    requires EntriesOk(p) && Current(p, e).Some?
    ensures Orphan(Stop(p, e), p.table[e]) <==> LeakyStop(p, e)
    ensures !LeakyStop(p, e) ==> IsInstalled(Stop(p, e), p.table[e]) && !RecordOf(Stop(p, e), p.table[e]).promise.Pending?
  {
    var c := p.table[e];
    assert EntryOk(p, e, c);
    forall f | f in p.table && f != e ensures p.table[f] != c { assert EntryOk(p, f, p.table[f]); }
  }

  /** Installing a record leaves the one it replaces unsettled exactly when that one's promise is pending. */
  lemma InstallOrphansExactlyWhen(p: Process, c: nat, now: int)
    requires EntriesOk(p) && CanInstall(p, c) && Current(p, p.calls[c].execution).Some?
    ensures
      var e := p.calls[c].execution;
      Orphan(Install(p, c, now), p.table[e]) <==> Current(p, e).value.promise.Pending?
  {
    var e := p.calls[c].execution;
    var p' := Install(p, c, now);
    assert EntryOk(p, e, p.table[e]);
    forall f | f in p'.table && f != e ensures p'.table[f] != p.table[e] { assert EntryOk(p, f, p.table[f]); }
  }

  // ---------------------------------------------------------------------
  // Outcomes
  // ---------------------------------------------------------------------

  /**
   * After the engine's promise has settled, its record's promise is settled exactly when it already was, or the error is
   * not cancel-like and the record is still the one in the table: `finalizeExecution` goes by id.
   */
  lemma OutcomeSettlesExactlyWhen(s: System, p: nat, c: nat, outcome: Outcome)
    requires Enabled(s, EndEngine(p, c, outcome)) && EntriesOk(s.procs[p])
    ensures IsRecord(Apply(s, EndEngine(p, c, outcome)), p, c)
    ensures !RecordAt(Apply(s, EndEngine(p, c, outcome)), p, c).promise.Pending? <==>
      !RecordAt(s, p, c).promise.Pending? || (outcome != Threw(true) && InTable(s.procs[p], c))
  {
    var e := CallAt(s, p, c).execution;
    if e in s.procs[p].table { assert EntryOk(s.procs[p], e, s.procs[p].table[e]); }
  }

  /**
   * The conditions under which every outcome settles: no leaky stop and no shutdown; no record is installed over one
   * whose promise is pending; a cancel-like error only arises once the promise is settled, as by `stopExecution`.
   */
  predicate Tame(s: System, l: Label)
    requires Enabled(s, l)
  {
    && Clean(s, l)
    && (l.InstallRecord? ==>
          var e := CallAt(s, l.p, l.c).execution;
          Current(s.procs[l.p], e).Some? ==> !Current(s.procs[l.p], e).value.promise.Pending?)
    && (l.EndEngine? && l.outcome == Threw(true) ==> !RecordAt(s, l.p, l.c).promise.Pending?)
  }

  predicate TameRun(s: System, ls: seq<Label>)
    requires CanRun(s, ls)
    decreases |ls|
  {
    ls == [] || (Tame(s, ls[0]) && TameRun(Apply(s, ls[0]), ls[1..]))
  }

  /** A pending promise belongs to the latest record; an engine that has ended has settled its record. */
  predicate OutcomeOk(s: System, p: nat, c: nat) {
    IsRecord(s, p, c) ==>
      && (RecordAt(s, p, c).promise.Pending? ==> IsLatest(s.procs[p], c))
      && (EngineOf(s, Ref(p, c)) == Ended ==> !RecordAt(s, p, c).promise.Pending?)
  }

  ghost predicate Settling(s: System) {
    Inv(s) && forall p: nat, c: nat :: OutcomeOk(s, p, c)
  }

  lemma PendingLatestIsInTable(p: Process, c: nat)
    requires Consistent(p) && IsLatest(p, c) && RecordOf(p, c).promise.Pending?
    ensures InTable(p, c)
  {
    assert RecordOk(p, c);
  }

  ghost predicate InstallsNothing(p: Process, p': Process) {
    p'.latest == p.latest && forall c: nat :: IsInstalled(p', c) ==> IsInstalled(p, c)
  }

  lemma SameRecordsInstallNothing(p: Process, p': Process)
    requires SameRecords(p, p')
    ensures InstallsNothing(p, p')
  {
    forall c: nat | IsInstalled(p', c) ensures IsInstalled(p, c) {
      if c < |p.calls| { assert SameCall(p.calls[c], p'.calls[c]); }
    }
  }

  lemma HandleInstallsNothing(p: Process, c: nat)
    requires QueuesMatch(p) && CanHandle(p, c)
    ensures InstallsNothing(p, Handle(p, c))
  {
    HandleIsRelease(p, c);
    HandleRecordQueues(p, c);
    ReleaseKeeps(HandleRecord(p, c), p.calls[c].mode);
    SameRecordsInstallNothing(HandleRecord(p, c), Handle(p, c));
    assert InstallsNothing(p, HandleRecord(p, c));
  }

  lemma PassInstallsNothing(p: Process, regularMode: bool, cancelAll: bool)
    ensures InstallsNothing(p, ShutdownPass(p, regularMode, cancelAll))
  {
    var p' := ShutdownPass(p, regularMode, cancelAll);
    if regularMode && cancelAll {
      forall c: nat | IsInstalled(p', c) ensures IsInstalled(p, c) {
        assert p'.calls[c] == CancelledCall(p.(enabled := false), c);
      }
    }
  }

  lemma MoveInstallsNothing(p: Process, m: Move)
    requires QueuesMatch(p) && Allowed(p, m) && !m.InstallCall?
    ensures InstallsNothing(p, Do(p, m))
  {
    match m {
      case BeginCall(e, mode, resume) =>
        BeginKeeps(p, e, mode, resume);
        SameRecordsInstallNothing(p, Do(p, m));
      case ThrowCall(d) =>
        ThrowKeeps(p, d);
        SameRecordsInstallNothing(p, Do(p, m));
      case HandleCall(d) => HandleInstallsNothing(p, d);
      case RemoveById(e, mode) =>
        RemoveQueuedKeeps(p, e, mode);
        SameRecordsInstallNothing(p, Do(p, m));
      case Pass(regularMode, cancelAll) => PassInstallsNothing(p, regularMode, cancelAll);
      case _ =>
    }
  }

  /** Moves other than installing: no promise becomes pending again. */
  lemma MoveKeepsLatest(p: Process, m: Move, c: nat)
    requires QueuesMatch(p) && Allowed(p, m) && !m.InstallCall? && IsInstalled(Do(p, m), c)
    ensures Do(p, m).latest == p.latest && IsInstalled(p, c) && CallFollows(p.calls[c], Do(p, m).calls[c])
  {
    MoveFollows(p, m);
    MoveInstallsNothing(p, m);
  }

  lemma EngineChangesExactlyWhen(s: System, l: Label, r: Ref)
    requires Enabled(s, l) && EngineOf(Apply(s, l), r) == Ended && EngineOf(s, r) != Ended
    ensures l.EndEngine? && r == Ref(l.p, l.c)
  {
  }

  lemma OutcomeElsewhere(s: System, l: Label, p: nat, c: nat)
    requires Enabled(s, l) && ProcessOf(l) != Some(p) && OutcomeOk(s, p, c)
    ensures OutcomeOk(Apply(s, l), p, c)
  {
    StepKeepsLength(s, l);
    if p < |s.procs| {
      OthersUntouched(s, l, p);
      if EngineOf(Apply(s, l), Ref(p, c)) == Ended && EngineOf(s, Ref(p, c)) != Ended {
        EngineChangesExactlyWhen(s, l, Ref(p, c));
      }
    }
  }

  /** Tame: the record that was the latest of the execution has its promise settled. */
  lemma ReplacedIsSettled(s: System, p: nat, d: nat, now: int, c: nat)
    requires Settling(s) && Enabled(s, InstallRecord(p, d, now)) && Tame(s, InstallRecord(p, d, now))
    requires IsInstalled(s.procs[p], c) && s.procs[p].calls[c].execution == s.procs[p].calls[d].execution
    ensures !RecordAt(s, p, c).promise.Pending?
  {
    assert OutcomeOk(s, p, c);
    if RecordAt(s, p, c).promise.Pending? { PendingLatestIsInTable(s.procs[p], c); }
  }

  lemma OutcomeAfterInstall(s: System, p: nat, d: nat, now: int, c: nat)
    requires Settling(s) && Enabled(s, InstallRecord(p, d, now)) && Tame(s, InstallRecord(p, d, now))
    ensures OutcomeOk(Apply(s, InstallRecord(p, d, now)), p, c)
  {
    var proc := s.procs[p];
    assert CallHeld(s, p, d);
    if c != d && IsInstalled(proc, c) {
      assert OutcomeOk(s, p, c);
      if proc.calls[c].execution == proc.calls[d].execution { ReplacedIsSettled(s, p, d, now, c); }
    }
  }

  lemma OutcomeAfterEnd(s: System, p: nat, c: nat, outcome: Outcome)
    requires Settling(s) && Enabled(s, EndEngine(p, c, outcome)) && Tame(s, EndEngine(p, c, outcome))
    ensures IsRecord(Apply(s, EndEngine(p, c, outcome)), p, c)
    ensures !RecordAt(Apply(s, EndEngine(p, c, outcome)), p, c).promise.Pending?
  {
    assert OutcomeOk(s, p, c);
    OutcomeSettlesExactlyWhen(s, p, c, outcome);
    if RecordAt(s, p, c).promise.Pending? { PendingLatestIsInTable(s.procs[p], c); }
  }

  /** The record has gone on without being installed anew. */
  lemma OutcomeGoesOn(s: System, s': System, p: nat, c: nat)
    requires OutcomeOk(s, p, c) && IsRecord(s, p, c) && IsRecord(s', p, c)
    requires CallFollows(s.procs[p].calls[c], s'.procs[p].calls[c]) && s'.procs[p].latest == s.procs[p].latest
    requires EngineOf(s', Ref(p, c)) == Ended ==>
      EngineOf(s, Ref(p, c)) == Ended || !RecordAt(s', p, c).promise.Pending?
    ensures OutcomeOk(s', p, c)
  {
  }

  lemma OutcomeHere(s: System, l: Label, c: nat)
    requires Settling(s) && Enabled(s, l) && Tame(s, l) && ProcessOf(l).Some? && !l.InstallRecord?
    ensures OutcomeOk(Apply(s, l), l.p, c)
  {
    var p, s' := l.p, Apply(s, l);
    StepIsMove(s, l);
    if IsRecord(s', p, c) {
      MoveKeepsLatest(s.procs[p], MoveOf(s, l), c);
      assert OutcomeOk(s, p, c);
      if EngineOf(s', Ref(p, c)) == Ended && EngineOf(s, Ref(p, c)) != Ended {
        EngineChangesExactlyWhen(s, l, Ref(p, c));
        OutcomeAfterEnd(s, p, c, l.outcome);
      }
      OutcomeGoesOn(s, s', p, c);
    }
  }

  lemma StepSettles(s: System, l: Label)
    requires Settling(s) && Enabled(s, l) && Tame(s, l)
    ensures Settling(Apply(s, l))
  {
    StepKeepsInv(s, l);
    forall p: nat, c: nat ensures OutcomeOk(Apply(s, l), p, c) {
      assert OutcomeOk(s, p, c);
      if ProcessOf(l) != Some(p) {
        OutcomeElsewhere(s, l, p, c);
      } else if l.InstallRecord? {
        OutcomeAfterInstall(s, p, l.c, l.now, c);
      } else {
        OutcomeHere(s, l, c);
      }
    }
  }

  lemma {:induction false} RunSettles(s: System, ls: seq<Label>)
    requires Settling(s) && CanRun(s, ls) && TameRun(s, ls)
    ensures Settling(Run(s, ls))
    decreases |ls|
  {
    if ls != [] {
      StepSettles(s, ls[0]);
      RunSettles(Apply(s, ls[0]), ls[1..]);
    }
  }

  /**
   * From the start, in every such run: once an engine has ended, by completion, error, stop or timeout, the promise of
   * its record is settled and the settle handler has run or can run; once it has run, the slot is given back, and the
   * record is out of the table unless it was left waiting.
   */
  lemma EveryOutcomeSettles(s: System, ls: seq<Label>, p: nat, c: nat)
    requires Init(s) && CanRun(s, ls) && TameRun(s, ls)
    requires IsRecord(Run(s, ls), p, c) && EngineOf(Run(s, ls), Ref(p, c)) == Ended
    ensures
      var proc, r := Run(s, ls).procs[p], RecordAt(Run(s, ls), p, c);
      && !r.promise.Pending?
      && (r.handled || CanHandle(proc, c))
      && (r.handled ==> forall q :: !HoldsSlot(proc.calls[c], q))
      && (r.handled && r.status != Waiting ==> !InTable(proc, c))
  {
    InitInv(s);
    assert Settling(s) by {
      forall d: nat, q: nat ensures OutcomeOk(s, q, d) {
        if q < |s.procs| { assert Fresh(s.procs[q]); }
      }
    }
    RunSettles(s, ls);
    var s' := Run(s, ls);
    assert OutcomeOk(s', p, c) && RecordOk(s'.procs[p], c);
  }

  // ---------------------------------------------------------------------
  // Every run: why a promise is left unsettled
  // ---------------------------------------------------------------------

  lemma OffTableIsOrphan(p: Process, c: nat)
    requires EntriesOk(p) && IsInstalled(p, c) && RecordOf(p, c).promise.Pending? && !InTable(p, c)
    ensures Orphan(p, c)
  {
    forall e | e in p.table ensures p.table[e] != c { assert EntryOk(p, e, p.table[e]); }
  }

  lemma StepOrphan(s: System, l: Label, p: nat, c: nat)
    requires AllQueuesMatch(s) && Enabled(s, l) && p < |s.procs| && Orphan(s.procs[p], c)
    ensures p < |Apply(s, l).procs| && Orphan(Apply(s, l).procs[p], c)
  {
    if ProcessOf(l) != Some(p) {
      OthersUntouched(s, l, p);
    } else {
      StepIsMove(s, l);
      MoveOrphan(s.procs[p], MoveOf(s, l), c);
    }
  }

  /** If the record's engine has ended with the promise pending, the record is an orphan or `cancelLike` says why. */
  ghost predicate Explained(s: System, p: nat, c: nat, cancelLike: bool) {
    && Core(s) && p < |s.procs| && EntriesOk(s.procs[p])
    && (IsRecord(s, p, c) && EngineOf(s, Ref(p, c)) == Ended && RecordAt(s, p, c).promise.Pending? ==>
          Orphan(s.procs[p], c) || cancelLike)
  }

  lemma OnlyRecordsEnd(s: System, l: Label, p: nat, c: nat)
    requires Core(s) && Enabled(s, l) && EngineOf(Apply(s, l), Ref(p, c)) == Ended
    ensures IsRecord(s, p, c)
  {
    if EngineOf(s, Ref(p, c)) == Ended {
      assert CallHeld(s, p, c);
    } else {
      EngineChangesExactlyWhen(s, l, Ref(p, c));
    }
  }

  /** An engine that ends on this step without a cancel-like error and leaves the promise pending had lost its entry. */
  lemma EndsAsOrphan(s: System, l: Label, p: nat, c: nat)
    requires Enabled(s, l) && p < |s.procs| && EntriesOk(s.procs[p]) && l != EndEngine(p, c, Threw(true))
    requires EngineOf(s, Ref(p, c)) != Ended && EngineOf(Apply(s, l), Ref(p, c)) == Ended
    requires IsRecord(s, p, c) && RecordAt(s, p, c).promise.Pending?
    requires IsRecord(Apply(s, l), p, c) && RecordAt(Apply(s, l), p, c).promise.Pending?
    ensures Orphan(s.procs[p], c)
  {
    EngineChangesExactlyWhen(s, l, Ref(p, c));
    OutcomeSettlesExactlyWhen(s, p, c, l.outcome);
    OffTableIsOrphan(s.procs[p], c);
  }

  lemma WasPending(s: System, l: Label, p: nat, c: nat)
    requires AllQueuesMatch(s) && Enabled(s, l) && IsRecord(s, p, c)
    ensures IsRecord(Apply(s, l), p, c)
    ensures RecordAt(Apply(s, l), p, c).promise.Pending? ==> RecordAt(s, p, c).promise.Pending?
  {
    StepFollows(s, l, p);
    assert CallFollows(s.procs[p].calls[c], Apply(s, l).procs[p].calls[c]);
  }

  lemma RecordExplained(s: System, l: Label, p: nat, c: nat, cancelLike: bool)
    requires Explained(s, p, c, cancelLike) && Enabled(s, l) && IsRecord(Apply(s, l), p, c)
    requires EngineOf(Apply(s, l), Ref(p, c)) == Ended && RecordAt(Apply(s, l), p, c).promise.Pending?
    ensures Orphan(Apply(s, l).procs[p], c) || cancelLike || l == EndEngine(p, c, Threw(true))
  {
    OnlyRecordsEnd(s, l, p, c);
    WasPending(s, l, p, c);
    if !cancelLike && l != EndEngine(p, c, Threw(true)) {
      if EngineOf(s, Ref(p, c)) != Ended { EndsAsOrphan(s, l, p, c); }
      StepOrphan(s, l, p, c);
    }
  }

  lemma StepExplained(s: System, l: Label, p: nat, c: nat, cancelLike: bool)
    requires Explained(s, p, c, cancelLike) && Enabled(s, l)
    ensures Explained(Apply(s, l), p, c, cancelLike || l == EndEngine(p, c, Threw(true)))
  {
    var s' := Apply(s, l);
    StepKeepsCore(s, l);
    StepFollows(s, l, p);
    EntriesStay(s.procs[p], s'.procs[p]);
    if IsRecord(s', p, c) && EngineOf(s', Ref(p, c)) == Ended && RecordAt(s', p, c).promise.Pending? {
      RecordExplained(s, l, p, c, cancelLike);
    }
  }

  lemma {:induction false} RunExplained(s: System, ls: seq<Label>, p: nat, c: nat, cancelLike: bool)
    requires Explained(s, p, c, cancelLike) && CanRun(s, ls)
    ensures Explained(Run(s, ls), p, c, cancelLike || EndEngine(p, c, Threw(true)) in ls)
    decreases |ls|
  {
    if ls != [] {
      StepExplained(s, ls[0], p, c, cancelLike);
      RunExplained(Apply(s, ls[0]), ls[1..], p, c, cancelLike || ls[0] == EndEngine(p, c, Threw(true)));
      assert ls == [ls[0]] + ls[1..];
    }
  }

  /**
   * From the start, in every run, whatever is stopped, shut down or replaced: when an engine has ended and the promise of its
   * record is still pending, then its error was cancel-like, or the record had left the table unsettled. The latter is what
   * a leaky stop, a replacement before settling and a shutdown do.
   */
  lemma UnsettledOutcomeIsExplained(s: System, ls: seq<Label>, p: nat, c: nat)
    requires Init(s) && CanRun(s, ls)
    requires IsRecord(Run(s, ls), p, c) && EngineOf(Run(s, ls), Ref(p, c)) == Ended
    requires RecordAt(Run(s, ls), p, c).promise.Pending? && EndEngine(p, c, Threw(true)) !in ls
    ensures Orphan(Run(s, ls).procs[p], c)
  {
    InitCore(s);
    RunKeepsLength(s, ls);
    assert Fresh(s.procs[p]);
    RunExplained(s, ls, p, c, false);
  }

  lemma {:induction false} RunKeepsLength(s: System, ls: seq<Label>)
    requires CanRun(s, ls)
    ensures |Run(s, ls).procs| == |s.procs|
    decreases |ls|
  {
    if ls != [] {
      StepKeepsLength(s, ls[0]);
      RunKeepsLength(Apply(s, ls[0]), ls[1..]);
    }
  }
}
