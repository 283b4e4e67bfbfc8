/**
 * The tables beside the resume protocol: in every run without shutdown and without a leaky stop, what a process has in its
 * table agrees with who holds each execution (packages/cli/src/active-executions.ts:62-244).
 */
module ResumeSafety {
  import opened Common
  import opened ExecutionTable
  import opened TableInvariants
  import opened ResumeProtocol
  import opened QuietSteps
  import opened CallHistories
  import opened SingleEngine

  /** An engine that has been put to wait has marked its record, if that is in the table. */
  predicate MarkOk(s: System, p: nat, c: nat) {
    IsRecord(s, p, c) && EngineOf(s, Ref(p, c)) == Marked && InTable(s.procs[p], c) ==> RecordAt(s, p, c).status == Waiting
  }

  /** A table entry that is not waiting belongs to the holder. */
  predicate EntryHeld(s: System, p: nat, e: ExecutionId)
    requires p < |s.procs|
  {
    (e in s.procs[p].table && Current(s.procs[p], e).Some? && Current(s.procs[p], e).value.status != Waiting) ==>
      Holds(s, e, Ref(p, s.procs[p].table[e]))
  }

  /** When a row says 'waiting', the holder's entry is marked waiting. */
  predicate RowMarked(s: System, e: ExecutionId) {
    IsWaiting(s, e) && e in s.holder && IsRecord(s, s.holder[e].process, s.holder[e].call) ==>
      InTable(s.procs[s.holder[e].process], s.holder[e].call) ==>
        RecordAt(s, s.holder[e].process, s.holder[e].call).status == Waiting
  }

  ghost predicate Tables(s: System) {
    && (forall p: nat :: p < |s.procs| ==> Consistent(s.procs[p]))
    && (forall p: nat, c: nat :: MarkOk(s, p, c))
    && (forall p: nat, e :: p < |s.procs| ==> EntryHeld(s, p, e))
    && (forall e :: RowMarked(s, e))
  }

  ghost predicate Inv(s: System) {
    Core(s) && Tables(s)
  }

  lemma InitInv(s: System)
    requires Init(s)
    ensures Inv(s)
  {
    InitCore(s);
    forall p: nat | p < |s.procs| ensures Consistent(s.procs[p]) { assert Fresh(s.procs[p]); }
    forall p: nat, c: nat ensures MarkOk(s, p, c) {
      if p < |s.procs| { assert Fresh(s.procs[p]); }
    }
    forall p: nat, e | p < |s.procs| ensures EntryHeld(s, p, e) { assert Fresh(s.procs[p]); }
  }

  // ---------------------------------------------------------------------
  // Changes of one component
  // ---------------------------------------------------------------------

  lemma QuietMark(s: System, p: nat, proc: Process, c: nat)
    requires p < |s.procs| && Quiet(s.procs[p], proc) && MarkOk(s, p, c)
    requires forall e :: e in s.procs[p].table ==> EntryOk(s.procs[p], e, s.procs[p].table[e])
    ensures MarkOk(WithProc(s, p, proc), p, c)
  {
    if InTable(proc, c) {
      assert EntryOk(s.procs[p], proc.calls[c].execution, c) && QuietCall(s.procs[p].calls[c], proc.calls[c]);
    }
  }

  lemma QuietEntry(s: System, p: nat, proc: Process, e: ExecutionId)
    requires p < |s.procs| && Quiet(s.procs[p], proc) && EntryHeld(s, p, e)
    requires e in s.procs[p].table ==> EntryOk(s.procs[p], e, s.procs[p].table[e])
    ensures EntryHeld(WithProc(s, p, proc), p, e)
  {
    if e in proc.table { assert QuietCall(s.procs[p].calls[proc.table[e]], proc.calls[proc.table[e]]); }
  }

  lemma QuietRow(s: System, p: nat, proc: Process, e: ExecutionId)
    requires p < |s.procs| && Quiet(s.procs[p], proc) && RowMarked(s, e)
    requires forall f :: f in s.procs[p].table ==> EntryOk(s.procs[p], f, s.procs[p].table[f])
    ensures RowMarked(WithProc(s, p, proc), e)
  {
    if e in s.holder && s.holder[e].process == p && InTable(proc, s.holder[e].call) {
      var c := s.holder[e].call;
      assert EntryOk(s.procs[p], proc.calls[c].execution, c) && QuietCall(s.procs[p].calls[c], proc.calls[c]);
    }
  }

  lemma QuietTables(s: System, p: nat, proc: Process)
    requires Tables(s) && p < |s.procs| && Consistent(proc) && Quiet(s.procs[p], proc)
    ensures Tables(WithProc(s, p, proc))
  {
    var s' := WithProc(s, p, proc);
    forall q: nat, c: nat ensures MarkOk(s', q, c) {
      assert MarkOk(s, q, c);
      if q == p { QuietMark(s, p, proc, c); }
    }
    forall q: nat, e | q < |s'.procs| ensures EntryHeld(s', q, e) {
      assert EntryHeld(s, q, e);
      if q == p { QuietEntry(s, p, proc, e); }
    }
    forall e ensures RowMarked(s', e) { QuietRow(s, p, proc, e); }
  }

  lemma RowTables(s: System, e: ExecutionId, status: Status)
    requires Tables(s) && (status == Waiting ==> RowMarked(WithStatus(s, e, Waiting), e))
    ensures Tables(WithStatus(s, e, status))
  {
    var s' := WithStatus(s, e, status);
    forall p: nat, c: nat ensures MarkOk(s', p, c) { assert MarkOk(s, p, c); }
    forall p: nat, f | p < |s'.procs| ensures EntryHeld(s', p, f) { assert EntryHeld(s, p, f); }
    forall f ensures RowMarked(s', f) { assert RowMarked(s, f); }
  }

  lemma EngineTables(s: System, p: nat, c: nat, engine: Engine)
    requires Tables(s) && (engine == Marked ==> MarkOk(WithEngine(s, Ref(p, c), Marked), p, c))
    ensures Tables(WithEngine(s, Ref(p, c), engine))
  {
    var s' := WithEngine(s, Ref(p, c), engine);
    forall q: nat, d: nat ensures MarkOk(s', q, d) { assert MarkOk(s, q, d); }
    forall q: nat, f | q < |s'.procs| ensures EntryHeld(s', q, f) { assert EntryHeld(s, q, f); }
    forall f ensures RowMarked(s', f) { assert RowMarked(s, f); }
  }

  // ---------------------------------------------------------------------
  // Winning, installing, creating
  // ---------------------------------------------------------------------

  ghost predicate EntriesWait(s: System, e: ExecutionId) {
    forall p: nat :: p < |s.procs| && Current(s.procs[p], e).Some? ==> Current(s.procs[p], e).value.status == Waiting
  }

  /** While a row waits, every process's entry for the execution is marked waiting. */
  lemma WaitingEntriesWait(s: System, e: ExecutionId)
    requires Inv(s) && IsWaiting(s, e)
    ensures EntriesWait(s, e)
  {
    assert RowHeld(s, e) && HolderOk(s, e) && RowMarked(s, e);
    forall p: nat | p < |s.procs| && Current(s.procs[p], e).Some? ensures Current(s.procs[p], e).value.status == Waiting {
      assert EntryHeld(s, p, e) && EntryOk(s.procs[p], e, s.procs[p].table[e]);
    }
  }

  lemma HolderTables(s: System, e: ExecutionId, r: Ref)
    requires Tables(s) && !IsWaiting(s, e) && EntriesWait(s, e)
    ensures Tables(WithHolder(s, e, r))
  {
    var s' := WithHolder(s, e, r);
    forall q: nat, d: nat ensures MarkOk(s', q, d) { assert MarkOk(s, q, d); }
    forall q: nat, f | q < |s'.procs| ensures EntryHeld(s', q, f) { assert EntryHeld(s, q, f); }
    forall f ensures RowMarked(s', f) { assert RowMarked(s, f); }
  }

  lemma MovePhase(p: Process, c: nat, phase: Phase)
    requires Consistent(p) && c < |p.calls| && p.calls[c].phase.Reserved?
    requires !phase.Installed? && !phase.Queued? && !phase.Dropped?
    ensures Consistent(SetPhase(p, c, phase))
  {
    var p' := SetPhase(p, c, phase);
    SetPhaseQueues(p, c, phase);
    forall d: nat | IsInstalled(p', d) ensures RecordOk(p', d) { assert RecordOk(p, d); }
    forall f | f in p'.table ensures EntryOk(p', f, p'.table[f]) { assert EntryOk(p, f, p.table[f]); }
    forall f | f in p'.latest ensures EntryOk(p', f, p'.latest[f]) { assert EntryOk(p, f, p.latest[f]); }
  }

  lemma WinCallTables(s: System, p: nat, c: nat)
    requires Tables(s) && IsCall(s, p, c) && CallAt(s, p, c).phase.Reserved?
    ensures Tables(WithProc(s, p, SetPhase(s.procs[p], c, Won)))
  {
    var proc := SetPhase(s.procs[p], c, Won);
    var s' := WithProc(s, p, proc);
    MovePhase(s.procs[p], c, Won);
    forall q: nat, d: nat ensures MarkOk(s', q, d) { assert MarkOk(s, q, d); }
    forall q: nat, f | q < |s'.procs| ensures EntryHeld(s', q, f) {
      assert EntryHeld(s, q, f);
      if q == p && f in proc.table { assert EntryOk(s.procs[p], f, s.procs[p].table[f]); }
    }
    forall f ensures RowMarked(s', f) { assert RowMarked(s, f); }
  }

  /** A winner only ever replaces a waiting entry. */
  lemma ReplacedEntryWaits(s: System, p: nat, c: nat)
    requires Inv(s) && p < |s.procs| && CanInstall(s.procs[p], c)
    ensures
      var e := CallAt(s, p, c).execution;
      && Holds(s, e, Ref(p, c)) && !IsWaiting(s, e)
      && (Current(s.procs[p], e).Some? ==> Current(s.procs[p], e).value.status == Waiting)
  {
    var e := CallAt(s, p, c).execution;
    assert CallHeld(s, p, c) && EntryHeld(s, p, e) && RowHeld(s, e);
  }

  lemma InstallMark(s: System, p: nat, c: nat, now: int, d: nat)
    requires Inv(s) && p < |s.procs| && CanInstall(s.procs[p], c)
    ensures MarkOk(WithProc(s, p, Install(s.procs[p], c, now)), p, d)
  {
    var proc := Install(s.procs[p], c, now);
    assert MarkOk(s, p, d) && CallHeld(s, p, c);
    if d != c && InTable(proc, d) { assert InTable(s.procs[p], d); }
  }

  lemma InstallEntry(s: System, p: nat, c: nat, now: int, e: ExecutionId)
    requires Inv(s) && p < |s.procs| && CanInstall(s.procs[p], c)
    ensures EntryHeld(WithProc(s, p, Install(s.procs[p], c, now)), p, e)
  {
    assert EntryHeld(s, p, e);
    ReplacedEntryWaits(s, p, c);
    if e in s.procs[p].table { assert EntryOk(s.procs[p], e, s.procs[p].table[e]); }
  }

  lemma InstallRow(s: System, p: nat, c: nat, now: int, e: ExecutionId)
    requires Inv(s) && p < |s.procs| && CanInstall(s.procs[p], c)
    ensures RowMarked(WithProc(s, p, Install(s.procs[p], c, now)), e)
  {
    var proc := Install(s.procs[p], c, now);
    assert RowMarked(s, e) && HolderOk(s, e);
    ReplacedEntryWaits(s, p, c);
    if e in s.holder && s.holder[e].process == p && s.holder[e].call != c && InTable(proc, s.holder[e].call) {
      assert proc.calls[s.holder[e].call] == s.procs[p].calls[s.holder[e].call];
    }
  }

  lemma InstallTables(s: System, p: nat, c: nat, now: int)
    requires Inv(s) && p < |s.procs| && CanInstall(s.procs[p], c)
    ensures Tables(WithProc(s, p, Install(s.procs[p], c, now)))
  {
    var s' := WithProc(s, p, Install(s.procs[p], c, now));
    ReplacedEntryWaits(s, p, c);
    InstallKeeps(s.procs[p], c, now);
    forall q: nat, d: nat ensures MarkOk(s', q, d) {
      assert MarkOk(s, q, d);
      if q == p { InstallMark(s, p, c, now, d); }
    }
    forall q: nat, f | q < |s'.procs| ensures EntryHeld(s', q, f) {
      if q == p { InstallEntry(s, p, c, now, f); } else { assert EntryHeld(s, q, f); }
    }
    forall f ensures RowMarked(s', f) { InstallRow(s, p, c, now, f); }
  }

  lemma EntryHasRow(s: System, q: nat, e: ExecutionId)
    requires Inv(s) && q < |s.procs| && e in s.procs[q].table
    ensures EntryOk(s.procs[q], e, s.procs[q].table[e]) && e in s.db
  {
    assert EntryOk(s.procs[q], e, s.procs[q].table[e]) && CallHeld(s, q, s.procs[q].table[e]);
  }

  lemma BeginEntry(s: System, p: nat, e: ExecutionId, mode: Mode, f: ExecutionId)
    requires p < |s.procs| && f in s.procs[p].table && EntryOk(s.procs[p], f, s.procs[p].table[f])
    ensures Current(Begin(s.procs[p], e, mode, false), f) == Current(s.procs[p], f)
    ensures Begin(s.procs[p], e, mode, false).table == s.procs[p].table
  {
  }

  lemma CreateEntry(s: System, p: nat, e: ExecutionId, mode: Mode, q: nat, f: ExecutionId)
    requires Inv(s) && Enabled(s, CreateExecution(p, e, mode)) && q < |s.procs|
    ensures EntryHeld(Apply(s, CreateExecution(p, e, mode)), q, f)
  {
    assert EntryHeld(s, q, f);
    if f in s.procs[q].table {
      EntryHasRow(s, q, f);
      if q == p { BeginEntry(s, p, e, mode, f); }
    }
  }

  lemma CreateConsistent(s: System, p: nat, e: ExecutionId, mode: Mode, q: nat)
    requires Tables(s) && Enabled(s, CreateExecution(p, e, mode)) && q < |s.procs|
    ensures Consistent(Apply(s, CreateExecution(p, e, mode)).procs[q])
  {
    assert Consistent(s.procs[q]);
    if q == p {
      BeginKeeps(s.procs[p], e, mode, false);
      SameRecordsConsistent(s.procs[p], Begin(s.procs[p], e, mode, false));
    }
  }

  lemma CreateMark(s: System, p: nat, e: ExecutionId, mode: Mode, q: nat, d: nat)
    requires Tables(s) && Enabled(s, CreateExecution(p, e, mode))
    ensures MarkOk(Apply(s, CreateExecution(p, e, mode)), q, d)
  {
    assert MarkOk(s, q, d);
  }

  lemma CreateRow(s: System, p: nat, e: ExecutionId, mode: Mode, f: ExecutionId)
    requires Inv(s) && Enabled(s, CreateExecution(p, e, mode))
    ensures RowMarked(Apply(s, CreateExecution(p, e, mode)), f)
  {
    assert RowMarked(s, f) && HolderOk(s, f);
  }

  lemma CreateTables(s: System, p: nat, e: ExecutionId, mode: Mode)
    requires Inv(s) && Enabled(s, CreateExecution(p, e, mode))
    ensures Tables(Apply(s, CreateExecution(p, e, mode)))
  {
    var s' := Apply(s, CreateExecution(p, e, mode));
    assert |s'.procs| == |s.procs|;
    forall q: nat | q < |s'.procs| ensures Consistent(s'.procs[q]) { CreateConsistent(s, p, e, mode, q); }
    forall q: nat, d: nat ensures MarkOk(s', q, d) { CreateMark(s, p, e, mode, q, d); }
    forall q: nat, f | q < |s'.procs| ensures EntryHeld(s', q, f) { CreateEntry(s, p, e, mode, q, f); }
    forall f ensures RowMarked(s', f) { CreateRow(s, p, e, mode, f); }
  }

  lemma WinTables(s: System, p: nat, c: nat)
    requires Inv(s) && Enabled(s, ConditionalUpdate(p, c)) && IsWaiting(s, CallAt(s, p, c).execution)
    ensures Tables(Apply(s, ConditionalUpdate(p, c)))
  {
    var e := CallAt(s, p, c).execution;
    var s1 := WithStatus(s, e, Running);
    WaitingEntriesWait(s, e);
    RowTables(s, e, Running);
    assert EntriesWait(s1, e);
    HolderTables(s1, e, Ref(p, c));
    WinCallTables(WithHolder(s1, e, Ref(p, c)), p, c);
    assert Apply(s, ConditionalUpdate(p, c)) == WithProc(WithHolder(s1, e, Ref(p, c)), p, SetPhase(s.procs[p], c, Won));
  }

  lemma SetRunningTables(s: System, p: nat, c: nat)
    requires Tables(s) && Enabled(s, SetRunning(p, c))
    ensures Tables(Apply(s, SetRunning(p, c)))
  {
    WinCallTables(s, p, c);
    RowTables(WithProc(s, p, SetPhase(s.procs[p], c, Won)), CallAt(s, p, c).execution, Running);
  }

  // ---------------------------------------------------------------------
  // Every step
  // ---------------------------------------------------------------------

  /** No shutdown, and no stop of a record that is marked waiting while its promise is pending. */
  predicate Clean(s: System, l: Label) {
    !l.Shutdown? && (l.StopExecution? && l.p < |s.procs| ==> !LeakyStop(s.procs[l.p], l.e))
  }

  lemma SameTableConsistent(p: Process, p': Process)
    requires Consistent(p) && p'.calls == p.calls && p'.queues == p.queues && p'.table == p.table && p'.latest == p.latest
    ensures Consistent(p')
  {
    TableQueues(p, p');
    forall d: nat | IsInstalled(p', d) ensures RecordOk(p', d) { assert RecordOk(p, d); }
    forall f | f in p'.table ensures EntryOk(p', f, p'.table[f]) { assert EntryOk(p, f, p.table[f]); }
    forall f | f in p'.latest ensures EntryOk(p', f, p'.latest[f]) { assert EntryOk(p, f, p.latest[f]); }
  }

  lemma MoveConsistent(p: Process, m: Move)
    requires Consistent(p) && Allowed(p, m) && IsQuiet(m) && !m.Pass? && (m.StopById? ==> !LeakyStop(p, m.e))
    ensures Consistent(Do(p, m))
  {
    match m {
      case BeginCall(e, mode, resume) =>
        BeginKeeps(p, e, mode, resume);
        SameRecordsConsistent(p, Do(p, m));
      case Decide(c, phase) => MovePhase(p, c, phase);
      case ThrowCall(c) =>
        ThrowKeeps(p, c);
        SameRecordsConsistent(p, Do(p, m));
      case HandleCall(c) => HandleKeeps(p, c);
      case Update(e, r) => UpdateKeeps(p, e, r);
      case StopById(e) => StopKeeps(p, e);
      case RemoveById(e, mode) =>
        RemoveQueuedKeeps(p, e, mode);
        SameRecordsConsistent(p, Do(p, m));
      case ModeById(e, responseMode) => SameTableConsistent(p, Do(p, m));
      case _ =>
    }
  }

  lemma AfterMoveTables(s: System, l: Label)
    requires Tables(s) && Enabled(s, l) && IsQuietStep(s, l) && Clean(s, l)
    ensures Tables(AfterMove(s, l))
  {
    if ProcessOf(l).Some? {
      var proc, m := s.procs[l.p], MoveOf(s, l);
      StepIsMove(s, l);
      assert Consistent(proc);
      MoveConsistent(proc, m);
      MoveQuiet(proc, m);
      QuietTables(s, l.p, Do(proc, m));
    }
  }

  /** An engine that waits marks its own record, or no record: `setStatus` goes by id. */
  lemma MarkHitsOwnRecord(s: System, p: nat, c: nat)
    requires Inv(s) && Enabled(s, MarkWaiting(p, c))
    ensures
      var proc := SetStatus(s.procs[p], CallAt(s, p, c).execution, Waiting);
      && IsInstalled(proc, c) && (InTable(proc, c) ==> RecordOf(proc, c).status == Waiting)
      && |proc.calls| == |s.procs[p].calls|
      && forall d: nat :: d < |proc.calls| && d != c ==> proc.calls[d] == s.procs[p].calls[d]
  {
    var e := CallAt(s, p, c).execution;
    assert CallHeld(s, p, c) && EntryHeld(s, p, e);
    if e in s.procs[p].table { assert EntryOk(s.procs[p], e, s.procs[p].table[e]); }
  }

  lemma MarkWaitingSets(s: System, p: nat, c: nat)
    requires Enabled(s, MarkWaiting(p, c))
    ensures AfterMove(s, MarkWaiting(p, c)) == WithProc(s, p, SetStatus(s.procs[p], CallAt(s, p, c).execution, Waiting))
  {
  }

  lemma AfterEngineTables(s: System, l: Label)
    requires Inv(s) && Enabled(s, l) && IsQuietStep(s, l) && Tables(AfterMove(s, l))
    ensures Tables(AfterEngine(AfterMove(s, l), l))
  {
    var s1 := AfterMove(s, l);
    match l {
      case StartEngine(p, c) => EngineTables(s1, p, c, Executing);
      case MarkWaiting(p, c) =>
        MarkHitsOwnRecord(s, p, c);
        MarkWaitingSets(s, p, c);
        EngineTables(s1, p, c, Marked);
      case Save(p, c, status) => EngineTables(s1, p, c, Saved);
      case EndEngine(p, c, outcome) => EngineTables(s1, p, c, Ended);
      case _ =>
    }
  }

  lemma QuietStepTables(s: System, l: Label)
    requires Inv(s) && Enabled(s, l) && IsQuietStep(s, l) && Clean(s, l)
    ensures Tables(Apply(s, l))
  {
    QuietStepParts(s, l);
    AfterMoveTables(s, l);
    AfterEngineTables(s, l);
    var s2 := AfterEngine(AfterMove(s, l), l);
    match l {
      case StartEngine(p, c) => RowTables(s2, CallAt(s2, p, c).execution, Running);
      case Save(p, c, status) =>
        assert MarkOk(s, p, c);
        SaverHolds(s, p, c, status);
        RowTables(s2, CallAt(s2, p, c).execution, status);
      case SaveFailure(p, c) => RowTables(s2, CallAt(s2, p, c).execution, Error);
      case CancelRow(e) => RowTables(s2, e, Canceled);
      case _ =>
    }
  }

  lemma StepKeepsInv(s: System, l: Label)
    requires Inv(s) && Enabled(s, l) && Clean(s, l)
    ensures Inv(Apply(s, l))
  {
    StepKeepsCore(s, l);
    if IsQuietStep(s, l) {
      QuietStepTables(s, l);
    } else if l.CreateExecution? {
      CreateTables(s, l.p, l.e, l.mode);
    } else if l.SetRunning? {
      SetRunningTables(s, l.p, l.c);
    } else if l.InstallRecord? {
      InstallTables(s, l.p, l.c, l.now);
    } else {
      WinTables(s, l.p, l.c);
    }
  }

  predicate CleanRun(s: System, ls: seq<Label>)
    requires CanRun(s, ls)
    decreases |ls|
  {
    ls == [] || (Clean(s, ls[0]) && CleanRun(Apply(s, ls[0]), ls[1..]))
  }

  lemma {:induction false} RunKeepsInv(s: System, ls: seq<Label>)
    requires Inv(s) && CanRun(s, ls) && CleanRun(s, ls)
    ensures Inv(Run(s, ls))
    decreases |ls|
  {
    if ls != [] {
      StepKeepsInv(s, ls[0]);
      RunKeepsInv(Apply(s, ls[0]), ls[1..]);
    }
  }
}
