/** What the first pass of `shutdown` leaves, and how the table drains (packages/cli/src/active-executions.ts:309-342). */
module ShutdownDrain {
  import opened Common
  import opened ExecutionTable
  import opened TableInvariants
  import opened ResumeProtocol
  import opened CallHistories

  /** The entry's promise is settled, its handler is still to run, and that handler will delete. */
  predicate Drains(p: Process, e: ExecutionId)
    requires e in p.table
  {
    && EntryOk(p, e, p.table[e])
    && var r := RecordOf(p, p.table[e]);
       !r.promise.Pending? && !r.handled && r.status != Waiting
  }

  ghost predicate Draining(p: Process) {
    !p.enabled && forall e :: e in p.table ==> Drains(p, e)
  }

  // ---------------------------------------------------------------------
  // What every run keeps, stops and earlier passes included
  // ---------------------------------------------------------------------

  /** A handler runs after its promise has settled, and leaves an entry only for a waiting record. */
  predicate HandlerOk(p: Process, c: nat) {
    IsInstalled(p, c) && RecordOf(p, c).handled ==>
      !RecordOf(p, c).promise.Pending? && (InTable(p, c) ==> RecordOf(p, c).status == Waiting)
  }

  ghost predicate Drainable(p: Process) {
    QueuesMatch(p) && EntriesOk(p) && forall c: nat :: HandlerOk(p, c)
  }

  lemma FreshIsDrainable(p: Process)
    requires Fresh(p)
    ensures Drainable(p)
  {
  }

  lemma SameRecordsHandler(p: Process, p': Process, c: nat)
    requires SameRecords(p, p') && HandlerOk(p, c)
    ensures HandlerOk(p', c)
  {
    if IsInstalled(p', c) { assert c < |p.calls| && SameCall(p.calls[c], p'.calls[c]); }
  }

  lemma ForgetHandler(p: Process, e: ExecutionId, c: nat)
    requires HandlerOk(p, c)
    ensures HandlerOk(Forget(p, e), c)
  {
  }

  lemma UpdateHandler(p: Process, e: ExecutionId, r: Record, c: nat)
    requires HandlerOk(p, c) && Allowed(p, Update(e, r))
    ensures HandlerOk(UpdateCurrent(p, e, r), c)
  {
  }

  lemma StopHandler(p: Process, e: ExecutionId, c: nat)
    requires HandlerOk(p, c)
    ensures HandlerOk(Stop(p, e), c)
  {
    if Current(p, e).Some? {
      var r := Current(p, e).value;
      if r.status == Waiting {
        ForgetHandler(p, e, c);
      } else {
        UpdateHandler(p, e, r.(promise := Settle(r.promise, Rejected)), c);
      }
    }
  }

  lemma InstallHandler(p: Process, d: nat, now: int, c: nat)
    requires HandlerOk(p, c) && CanInstall(p, d)
    ensures HandlerOk(Install(p, d, now), c)
  {
    if c != d && InTable(Install(p, d, now), c) { assert InTable(p, c); }
  }

  lemma HandleRecordHandler(p: Process, d: nat, c: nat)
    requires HandlerOk(p, c) && CanHandle(p, d)
    ensures HandlerOk(HandleRecord(p, d), c)
  {
  }

  lemma HandleHandler(p: Process, d: nat, c: nat)
    requires QueuesMatch(p) && HandlerOk(p, c) && CanHandle(p, d)
    ensures HandlerOk(Handle(p, d), c)
  {
    HandleIsRelease(p, d);
    HandleRecordQueues(p, d);
    ReleaseKeeps(HandleRecord(p, d), p.calls[d].mode);
    HandleRecordHandler(p, d, c);
    SameRecordsHandler(HandleRecord(p, d), Handle(p, d), c);
  }

  lemma PassHandler(p: Process, regularMode: bool, cancelAll: bool, c: nat)
    requires HandlerOk(p, c)
    ensures HandlerOk(ShutdownPass(p, regularMode, cancelAll), c)
  {
    var p' := ShutdownPass(p, regularMode, cancelAll);
    if regularMode && cancelAll && IsInstalled(p', c) {
      assert p'.calls[c] == CancelledCall(p.(enabled := false), c);
      if InTable(p', c) { assert InTable(p, c); }
    }
  }

  lemma MoveHandler(p: Process, m: Move, c: nat)
    requires QueuesMatch(p) && HandlerOk(p, c) && Allowed(p, m)
    ensures HandlerOk(Do(p, m), c)
  {
    match m {
      case BeginCall(e, mode, resume) =>
        BeginKeeps(p, e, mode, resume);
        SameRecordsHandler(p, Do(p, m), c);
      case ThrowCall(d) =>
        ThrowKeeps(p, d);
        SameRecordsHandler(p, Do(p, m), c);
      case InstallCall(d, now) => InstallHandler(p, d, now, c);
      case HandleCall(d) => HandleHandler(p, d, c);
      case Update(e, r) => UpdateHandler(p, e, r, c);
      case StopById(e) => StopHandler(p, e, c);
      case RemoveById(e, mode) =>
        RemoveQueuedKeeps(p, e, mode);
        SameRecordsHandler(p, Do(p, m), c);
      case Pass(regularMode, cancelAll) => PassHandler(p, regularMode, cancelAll, c);
      case _ =>
    }
  }

  lemma MoveDrainable(p: Process, m: Move)
    requires Drainable(p) && Allowed(p, m)
    ensures Drainable(Do(p, m))
  {
    MoveFollows(p, m);
    EntriesStay(p, Do(p, m));
    forall c: nat ensures HandlerOk(Do(p, m), c) { MoveHandler(p, m, c); }
  }

  lemma StepDrainable(s: System, l: Label, p: nat)
    requires Enabled(s, l) && p < |s.procs| && Drainable(s.procs[p])
    ensures p < |Apply(s, l).procs| && Drainable(Apply(s, l).procs[p])
  {
    if ProcessOf(l) != Some(p) {
      OthersUntouched(s, l, p);
    } else {
      StepIsMove(s, l);
      MoveDrainable(s.procs[p], MoveOf(s, l));
    }
  }

  lemma {:induction false} RunKeepsDrainable(s: System, ls: seq<Label>, p: nat)
    requires CanRun(s, ls) && p < |s.procs| && Drainable(s.procs[p])
    ensures p < |Run(s, ls).procs| && Drainable(Run(s, ls).procs[p])
    decreases |ls|
  {
    if ls != [] {
      StepDrainable(s, ls[0], p);
      RunKeepsDrainable(Apply(s, ls[0]), ls[1..], p);
    }
  }

  // ---------------------------------------------------------------------
  // The pass
  // ---------------------------------------------------------------------

  lemma CancelledEntryDrains(p: Process, e: ExecutionId)
    requires Drainable(p) && e in CancelAll(p.(enabled := false)).table
    ensures Drains(CancelAll(p.(enabled := false)), e)
  {
    var p1, c := p.(enabled := false), p.table[e];
    assert EntryOk(p, e, c) && HandlerOk(p, c);
    assert CancelAll(p1).calls[c] == CancelledCall(p1, c);
  }

  /** In regular mode, cancelling: every entry left after the pass has a settled promise and is not waiting. */
  lemma PassSettlesEveryEntry(p: Process)
    requires Drainable(p)
    ensures Draining(ShutdownPass(p, true, true))
    ensures forall e :: e in ShutdownPass(p, true, true).table <==> e in p.table && !StatusIs(p, e, Waiting)
  {
    var p' := CancelAll(p.(enabled := false));
    forall e | e in p'.table ensures Drains(p', e) { CancelledEntryDrains(p, e); }
  }

  lemma ReleaseWhenDisabled(p: Process, mode: Mode)
    requires !p.enabled
    ensures Release(p, mode) == p
  {
  }

  lemma UpdateDrains(p: Process, e: ExecutionId, r: Record)
    requires Draining(p) && Allowed(p, Update(e, r)) && r.status != Waiting
    ensures Draining(UpdateCurrent(p, e, r))
  {
    var p' := UpdateCurrent(p, e, r);
    forall f | f in p'.table ensures Drains(p', f) { assert Drains(p, f) && Drains(p, e); }
  }

  lemma HandleDrains(p: Process, c: nat)
    requires Draining(p) && CanHandle(p, c)
    ensures Draining(Handle(p, c))
  {
    var p' := Handle(p, c);
    HandleIsRelease(p, c);
    ReleaseWhenDisabled(HandleRecord(p, c), p.calls[c].mode);
    forall f | f in p'.table ensures Drains(p', f) { assert Drains(p, f); }
  }

  lemma SetPhaseDrains(p: Process, c: nat, phase: Phase)
    requires Draining(p) && c < |p.calls| && !p.calls[c].phase.Installed?
    ensures Draining(SetPhase(p, c, phase))
  {
    var p' := SetPhase(p, c, phase);
    forall f | f in p'.table ensures Drains(p', f) { assert Drains(p, f); }
  }

  lemma BeginDrains(p: Process, e: ExecutionId, mode: Mode, resume: bool)
    requires Draining(p)
    ensures Draining(Begin(p, e, mode, resume))
  {
    var p' := Begin(p, e, mode, resume);
    forall f | f in p'.table ensures Drains(p', f) { assert Drains(p, f); }
  }

  lemma PassDrains(p: Process, regularMode: bool, cancelAll: bool)
    requires Draining(p)
    ensures Draining(ShutdownPass(p, regularMode, cancelAll))
  {
    var p' := ShutdownPass(p, regularMode, cancelAll);
    forall f | f in p'.table ensures Drains(p', f) {
      assert Drains(p, f);
      if regularMode && cancelAll { assert p'.calls[p.table[f]] == CancelledCall(p.(enabled := false), p.table[f]); }
    }
  }

  lemma StopDrains(p: Process, e: ExecutionId)
    requires Draining(p)
    ensures Draining(Stop(p, e))
  {
    if Current(p, e).Some? {
      assert Drains(p, e);
      var r := Current(p, e).value;
      UpdateDrains(p, e, r.(promise := Settle(r.promise, Rejected)));
    }
  }

  lemma MoveDrains(p: Process, m: Move)
    requires Draining(p) && Allowed(p, m) && !m.InstallCall? && (m.Update? ==> m.r.status != Waiting)
    ensures Draining(Do(p, m))
  {
    match m {
      case BeginCall(e, mode, resume) => BeginDrains(p, e, mode, resume);
      case Decide(c, phase) => SetPhaseDrains(p, c, phase);
      case ThrowCall(c) =>
        var phase := if p.calls[c].phase.Lost? then ThrewAlreadyResuming else ThrewDatabaseError;
        SetPhaseDrains(p, c, phase);
        ReleaseWhenDisabled(SetPhase(p, c, phase), p.calls[c].mode);
      case InstallCall(c, now) =>
      case HandleCall(c) => HandleDrains(p, c);
      case Update(e, r) => UpdateDrains(p, e, r);
      case StopById(e) => StopDrains(p, e);
      case ModeById(e, responseMode) =>
        forall f | f in p.table ensures Drains(Do(p, m), f) { assert Drains(p, f); }
      case Pass(regularMode, cancelAll) => PassDrains(p, regularMode, cancelAll);
      case _ =>
    }
  }

  /** The process installs no further record and marks none as waiting in the run. */
  ghost predicate NoNewWork(ls: seq<Label>, p: nat) {
    forall i :: 0 <= i < |ls| ==> !((ls[i].InstallRecord? || ls[i].MarkWaiting?) && ls[i].p == p)
  }

  lemma StepDrains(s: System, l: Label, p: nat)
    requires Enabled(s, l) && p < |s.procs| && Draining(s.procs[p])
    requires !((l.InstallRecord? || l.MarkWaiting?) && l.p == p)
    ensures p < |Apply(s, l).procs| && Draining(Apply(s, l).procs[p])
  {
    if ProcessOf(l) != Some(p) {
      OthersUntouched(s, l, p);
    } else {
      StepIsMove(s, l);
      var m := MoveOf(s, l);
      if m.Update? { assert Drains(s.procs[p], m.e); }
      MoveDrains(s.procs[p], m);
    }
  }

  lemma {:induction false} RunDrains(s: System, ls: seq<Label>, p: nat)
    requires CanRun(s, ls) && p < |s.procs| && Draining(s.procs[p]) && NoNewWork(ls, p)
    ensures p < |Run(s, ls).procs| && Draining(Run(s, ls).procs[p])
    decreases |ls|
  {
    if ls != [] {
      assert !((ls[0].InstallRecord? || ls[0].MarkWaiting?) && ls[0].p == p);
      StepDrains(s, ls[0], p);
      assert NoNewWork(ls[1..], p) by {
        forall i | 0 <= i < |ls[1..]| ensures !((ls[1..][i].InstallRecord? || ls[1..][i].MarkWaiting?) && ls[1..][i].p == p) {
          assert ls[1..][i] == ls[i + 1];
        }
      }
      RunDrains(Apply(s, ls[0]), ls[1..], p);
    }
  }

  /**
   * From the start, after any run, stops and earlier shutdown passes included: after a cancelling shutdown in regular mode,
   * and any further run in which the process installs no record and marks none as waiting, the table is empty once no
   * settle handler is left to run, so the wait loop of `shutdown` ends.
   */
  lemma TableEmptiesOnceHandlersRan(s: System, before: seq<Label>, after: seq<Label>, p: nat)
    requires Init(s) && CanRun(s, before) && p < |s.procs|
    requires Enabled(Run(s, before), Shutdown(p, true, true)) && NoNewWork(after, p)
    requires CanRun(Apply(Run(s, before), Shutdown(p, true, true)), after)
    ensures
      var s' := Run(Apply(Run(s, before), Shutdown(p, true, true)), after);
      && p < |s'.procs|
      && ((forall c: nat :: !CanHandle(s'.procs[p], c)) ==> s'.procs[p].table == map[])
  {
    var s1 := Run(s, before);
    var s2 := Apply(s1, Shutdown(p, true, true));
    FreshIsDrainable(s.procs[p]);
    RunKeepsDrainable(s, before, p);
    PassSettlesEveryEntry(s1.procs[p]);
    RunDrains(s2, after, p);
    var proc := Run(s2, after).procs[p];
    if proc.table != map[] {
      var e :| e in proc.table;
      assert Drains(proc, e) && CanHandle(proc, proc.table[e]);
    }
  }

  // ---------------------------------------------------------------------
  // Throttled calls after the service is disabled
  // ---------------------------------------------------------------------

  lemma QueuedStays(p: Process, m: Move, c: nat)
    requires QueuesMatch(p) && Allowed(p, m) && !p.enabled && c < |p.calls| && p.calls[c].phase.Queued?
    ensures c < |Do(p, m).calls| && Do(p, m).calls[c] == p.calls[c]
  {
    match m {
      case ThrowCall(d) => ReleaseWhenDisabled(SetPhase(p, d, Do(p, m).calls[d].phase), p.calls[d].mode);
      case HandleCall(d) =>
        HandleIsRelease(p, d);
        ReleaseWhenDisabled(HandleRecord(p, d), p.calls[d].mode);
      case Pass(regularMode, cancelAll) =>
        if regularMode && cancelAll { assert Do(p, m).calls[c] == CancelledCall(p.(enabled := false), c); }
      case _ =>
    }
  }

  /** Once the service is disabled, in every run, a call that waits for a slot keeps waiting: it is never let through. */
  lemma {:induction false} ThrottledCallsNeverContinue(s: System, ls: seq<Label>, p: nat, c: nat)
    requires AllQueuesMatch(s) && CanRun(s, ls) && IsCall(s, p, c) && !s.procs[p].enabled && CallAt(s, p, c).phase.Queued?
    ensures IsCall(Run(s, ls), p, c) && CallAt(Run(s, ls), p, c) == CallAt(s, p, c)
    decreases |ls|
  {
    if ls != [] {
      StepQueues(s, ls[0]);
      StepFollows(s, ls[0], p);
      if ProcessOf(ls[0]) != Some(p) {
        OthersUntouched(s, ls[0], p);
      } else {
        StepIsMove(s, ls[0]);
        QueuedStays(s.procs[p], MoveOf(s, ls[0]), c);
      }
      ThrottledCallsNeverContinue(Apply(s, ls[0]), ls[1..], p, c);
    }
  }
}
