/**
 * At most one engine per execution, over all processes and in every run, stops and shutdowns included: what follows from
 * the conditional update alone (packages/cli/src/active-executions.ts:98-121), whatever becomes of the tables.
 */
module SingleEngine {
  import opened Common
  import opened ExecutionTable
  import opened TableInvariants
  import opened ResumeProtocol
  import opened QuietSteps
  import opened CallHistories

  predicate Holds(s: System, e: ExecutionId, r: Ref) {
    e in s.holder && s.holder[e] == r
  }

  /** The engine has not saved its outcome; it may not have been started yet. */
  predicate IsLive(engine: Engine) {
    engine == Idle || engine == Executing || engine == Marked
  }

  /** The call has won and not installed, is to set up a new execution, or its record's engine is live. */
  predicate Claims(call: Call, engine: Engine) {
    || call.phase.Won?
    || (!call.resume && (call.phase.Queued? || call.phase.Reserved?))
    || (call.phase.Installed? && IsLive(engine))
  }

  /** Whoever claims an execution is its holder; only records have engines, and only of executions with a row. */
  predicate CallHeld(s: System, p: nat, c: nat)
    requires IsCall(s, p, c)
  {
    var call, r := CallAt(s, p, c), Ref(p, c);
    && (Claims(call, EngineOf(s, r)) ==> Holds(s, call.execution, r))
    && (call.phase.Installed? ==> call.execution in s.db)
    && (!call.phase.Installed? ==> EngineOf(s, r) == Idle)
  }

  predicate HolderOk(s: System, e: ExecutionId) {
    e in s.holder ==> IsCall(s, s.holder[e].process, s.holder[e].call)
                      && CallAt(s, s.holder[e].process, s.holder[e].call).execution == e
  }

  /** A row says 'waiting' only once the holder's engine has saved. */
  predicate RowHeld(s: System, e: ExecutionId) {
    IsWaiting(s, e) ==>
      && e in s.holder
      && IsRecord(s, s.holder[e].process, s.holder[e].call)
      && !IsLive(EngineOf(s, s.holder[e]))
  }

  ghost predicate Core(s: System) {
    && AllQueuesMatch(s)
    && s.holder.Keys == s.db.Keys
    && (forall p: nat, c: nat :: IsCall(s, p, c) ==> CallHeld(s, p, c))
    && (forall e :: HolderOk(s, e))
    && (forall e :: RowHeld(s, e))
    && (forall r :: r in s.engines ==> IsCall(s, r.process, r.call))
  }

  lemma InitCore(s: System)
    requires Init(s)
    ensures Core(s)
  {
    forall p: nat | p < |s.procs| ensures QueuesMatch(s.procs[p]) { assert Fresh(s.procs[p]); }
    forall p: nat, c: nat ensures !IsCall(s, p, c) {
      if p < |s.procs| { assert Fresh(s.procs[p]); }
    }
  }

  // ---------------------------------------------------------------------
  // Changes of one component
  // ---------------------------------------------------------------------

  lemma QuietCallHeld(s: System, p: nat, proc: Process, c: nat)
    requires p < |s.procs| && CallsQuiet(s.procs[p], proc) && c < |proc.calls|
    requires IsCall(s, p, c) ==> CallHeld(s, p, c)
    requires Ref(p, c) in s.engines ==> IsCall(s, p, c)
    ensures CallHeld(WithProc(s, p, proc), p, c)
  {
    if c < |s.procs[p].calls| { assert QuietCall(s.procs[p].calls[c], proc.calls[c]); }
  }

  lemma QuietRowHeld(s: System, p: nat, proc: Process, e: ExecutionId)
    requires p < |s.procs| && CallsQuiet(s.procs[p], proc) && HolderOk(s, e) && RowHeld(s, e)
    ensures HolderOk(WithProc(s, p, proc), e) && RowHeld(WithProc(s, p, proc), e)
  {
    if e in s.holder && s.holder[e].process == p {
      assert QuietCall(s.procs[p].calls[s.holder[e].call], proc.calls[s.holder[e].call]);
    }
  }

  lemma QuietCore(s: System, p: nat, proc: Process)
    requires Core(s) && p < |s.procs| && QueuesMatch(proc) && CallsQuiet(s.procs[p], proc)
    ensures Core(WithProc(s, p, proc))
  {
    var s' := WithProc(s, p, proc);
    forall q: nat, c: nat | IsCall(s', q, c) ensures CallHeld(s', q, c) {
      if q != p { assert CallHeld(s, q, c); } else { QuietCallHeld(s, p, proc, c); }
    }
    forall e ensures HolderOk(s', e) && RowHeld(s', e) { QuietRowHeld(s, p, proc, e); }
    forall r | r in s'.engines ensures IsCall(s', r.process, r.call) { assert IsCall(s, r.process, r.call); }
  }

  lemma RowCore(s: System, e: ExecutionId, status: Status)
    requires Core(s) && e in s.db && (status == Waiting ==> RowHeld(WithStatus(s, e, Waiting), e))
    ensures Core(WithStatus(s, e, status))
  {
    var s' := WithStatus(s, e, status);
    forall p: nat, c: nat | IsCall(s', p, c) ensures CallHeld(s', p, c) { assert CallHeld(s, p, c); }
    forall f ensures HolderOk(s', f) && RowHeld(s', f) { assert HolderOk(s, f) && RowHeld(s, f); }
    assert s'.holder.Keys == s'.db.Keys;
  }

  lemma EngineCore(s: System, p: nat, c: nat, engine: Engine)
    requires Core(s) && IsRecord(s, p, c) && (IsLive(engine) ==> IsLive(EngineOf(s, Ref(p, c))))
    ensures Core(WithEngine(s, Ref(p, c), engine))
  {
    var s' := WithEngine(s, Ref(p, c), engine);
    forall q: nat, d: nat | IsCall(s', q, d) ensures CallHeld(s', q, d) { assert CallHeld(s, q, d); }
    forall f ensures HolderOk(s', f) && RowHeld(s', f) { assert HolderOk(s, f) && RowHeld(s, f); }
  }

  // ---------------------------------------------------------------------
  // Winning, installing, creating
  // ---------------------------------------------------------------------

  /** Nobody is about to run the execution or running it. */
  ghost predicate Unclaimed(s: System, e: ExecutionId) {
    forall p: nat, c: nat :: IsCall(s, p, c) && CallAt(s, p, c).execution == e ==>
      !Claims(CallAt(s, p, c), EngineOf(s, Ref(p, c)))
  }

  /** While a row waits, no process is about to run the execution or running it. */
  lemma WaitingIsUnclaimed(s: System, e: ExecutionId)
    requires Core(s) && IsWaiting(s, e)
    ensures Unclaimed(s, e)
  {
    assert RowHeld(s, e) && HolderOk(s, e);
    forall p: nat, c: nat | IsCall(s, p, c) && CallAt(s, p, c).execution == e
      ensures !Claims(CallAt(s, p, c), EngineOf(s, Ref(p, c)))
    {
      assert CallHeld(s, p, c);
    }
  }

  function WithHolder(s: System, e: ExecutionId, r: Ref): System {
    s.(holder := s.holder[e := r])
  }

  lemma HolderCore(s: System, e: ExecutionId, r: Ref)
    requires Core(s) && e in s.db && !IsWaiting(s, e) && Unclaimed(s, e)
    requires IsCall(s, r.process, r.call) && CallAt(s, r.process, r.call).execution == e
    ensures Core(WithHolder(s, e, r))
  {
    var s' := WithHolder(s, e, r);
    forall q: nat, d: nat | IsCall(s', q, d) ensures CallHeld(s', q, d) { assert CallHeld(s, q, d); }
    forall f ensures HolderOk(s', f) && RowHeld(s', f) { assert HolderOk(s, f) && RowHeld(s, f); }
    assert s'.holder.Keys == s'.db.Keys;
  }

  /** A call of the holder moves from its slot to having won, or from having won to its record. */
  lemma HolderMovesCore(s: System, p: nat, c: nat, proc: Process)
    requires Core(s) && IsCall(s, p, c) && !CallAt(s, p, c).phase.Installed? && QueuesMatch(proc)
    requires Holds(s, CallAt(s, p, c).execution, Ref(p, c))
    requires |proc.calls| == |s.procs[p].calls|
    requires forall d: nat :: d < |proc.calls| && d != c ==> proc.calls[d] == s.procs[p].calls[d]
    requires proc.calls[c] == s.procs[p].calls[c].(phase := proc.calls[c].phase)
    ensures Core(WithProc(s, p, proc))
  {
    var s' := WithProc(s, p, proc);
    var e := CallAt(s, p, c).execution;
    assert CallHeld(s, p, c) && e in s.db;
    forall q: nat, d: nat | IsCall(s', q, d) ensures CallHeld(s', q, d) { assert CallHeld(s, q, d); }
    forall f ensures HolderOk(s', f) && RowHeld(s', f) { assert HolderOk(s, f) && RowHeld(s, f); }
    forall r | r in s'.engines ensures IsCall(s', r.process, r.call) { assert IsCall(s, r.process, r.call); }
  }

  lemma CreateCore(s: System, p: nat, e: ExecutionId, mode: Mode)
    requires Core(s) && Enabled(s, CreateExecution(p, e, mode))
    ensures Core(Apply(s, CreateExecution(p, e, mode)))
  {
    var l := CreateExecution(p, e, mode);
    var s' := Apply(s, l);
    StepQueues(s, l);
    forall q: nat, d: nat | IsCall(s', q, d) ensures CallHeld(s', q, d) {
      if IsCall(s, q, d) { assert CallHeld(s, q, d); } else { assert d == |s.procs[p].calls| && Ref(q, d) !in s.engines; }
    }
    forall f ensures HolderOk(s', f) && RowHeld(s', f) { assert HolderOk(s, f) && RowHeld(s, f); }
    forall r | r in s'.engines ensures IsCall(s', r.process, r.call) { assert IsCall(s, r.process, r.call); }
    assert s'.holder.Keys == s'.db.Keys;
  }

  lemma WinCore(s: System, p: nat, c: nat)
    requires Core(s) && Enabled(s, ConditionalUpdate(p, c)) && IsWaiting(s, CallAt(s, p, c).execution)
    ensures Core(Apply(s, ConditionalUpdate(p, c)))
  {
    var e, proc := CallAt(s, p, c).execution, SetPhase(s.procs[p], c, Won);
    WaitingIsUnclaimed(s, e);
    RowCore(s, e, Running);
    var s1 := WithStatus(s, e, Running);
    assert Unclaimed(s1, e) by {
      forall q: nat, d: nat | IsCall(s1, q, d) && CallAt(s1, q, d).execution == e
        ensures !Claims(CallAt(s1, q, d), EngineOf(s1, Ref(q, d)))
      {
        assert IsCall(s, q, d) && CallAt(s, q, d).execution == e;
      }
    }
    HolderCore(s1, e, Ref(p, c));
    SetPhaseQueues(s.procs[p], c, Won);
    HolderMovesCore(WithHolder(s1, e, Ref(p, c)), p, c, proc);
    assert Apply(s, ConditionalUpdate(p, c)) == WithProc(WithHolder(s1, e, Ref(p, c)), p, proc);
  }

  lemma SetRunningCore(s: System, p: nat, c: nat)
    requires Core(s) && Enabled(s, SetRunning(p, c))
    ensures Core(Apply(s, SetRunning(p, c)))
  {
    var proc := SetPhase(s.procs[p], c, Won);
    assert CallHeld(s, p, c);
    SetPhaseQueues(s.procs[p], c, Won);
    HolderMovesCore(s, p, c, proc);
    RowCore(WithProc(s, p, proc), CallAt(s, p, c).execution, Running);
  }

  lemma InstallCore(s: System, p: nat, c: nat, now: int)
    requires Core(s) && p < |s.procs| && CanInstall(s.procs[p], c)
    ensures Core(WithProc(s, p, Install(s.procs[p], c, now)))
  {
    assert CallHeld(s, p, c) && QueuesMatch(s.procs[p]);
    InstallFollows(s.procs[p], c, now);
    HolderMovesCore(s, p, c, Install(s.procs[p], c, now));
  }

  // ---------------------------------------------------------------------
  // Every step
  // ---------------------------------------------------------------------

  /** The steps on which nobody wins, installs or creates. */
  predicate IsQuietStep(s: System, l: Label)
    requires Enabled(s, l)
  {
    && !l.CreateExecution? && !l.SetRunning? && !l.InstallRecord?
    && (l.ConditionalUpdate? ==> !IsWaiting(s, CallAt(s, l.p, l.c).execution))
  }

  /** What the step does to its process. */
  function AfterMove(s: System, l: Label): System
    requires Enabled(s, l)
  {
    if ProcessOf(l) == None then s
    else
      StepIsMove(s, l);
      WithProc(s, l.p, Do(s.procs[l.p], MoveOf(s, l)))
  }

  /** What a quiet step does besides: an engine moves on, and a row is written. */
  function AfterEngine(s: System, l: Label): System {
    match l
    case StartEngine(p, c) => WithEngine(s, Ref(p, c), Executing)
    case MarkWaiting(p, c) => WithEngine(s, Ref(p, c), Marked)
    case Save(p, c, status) => WithEngine(s, Ref(p, c), Saved)
    case EndEngine(p, c, outcome) => WithEngine(s, Ref(p, c), Ended)
    case _ => s
  }

  function AfterRow(s: System, l: Label): System
    requires l.StartEngine? || l.Save? || l.SaveFailure? ==> IsCall(s, l.p, l.c)
  {
    match l
    case StartEngine(p, c) => WithStatus(s, CallAt(s, p, c).execution, Running)
    case Save(p, c, status) => WithStatus(s, CallAt(s, p, c).execution, status)
    case SaveFailure(p, c) => WithStatus(s, CallAt(s, p, c).execution, Error)
    case CancelRow(e) => WithStatus(s, e, Canceled)
    case _ => s
  }

  lemma EngineStepParts(s: System, l: Label)
    requires Enabled(s, l) && (l.StartEngine? || l.MarkWaiting? || l.Save? || l.EndEngine? || l.SaveFailure?)
    ensures IsCall(AfterEngine(AfterMove(s, l), l), l.p, l.c)
    ensures Apply(s, l) == AfterRow(AfterEngine(AfterMove(s, l), l), l)
  {
  }

  lemma QuietStepParts(s: System, l: Label)
    requires Enabled(s, l) && IsQuietStep(s, l)
    ensures (l.StartEngine? || l.Save? || l.SaveFailure?) ==> IsCall(AfterEngine(AfterMove(s, l), l), l.p, l.c)
    ensures Apply(s, l) == AfterRow(AfterEngine(AfterMove(s, l), l), l)
  {
    if l.StartEngine? || l.MarkWaiting? || l.Save? || l.EndEngine? || l.SaveFailure? { EngineStepParts(s, l); }
  }

  lemma AfterMoveCore(s: System, l: Label)
    requires Core(s) && Enabled(s, l) && IsQuietStep(s, l)
    ensures Core(AfterMove(s, l))
  {
    if ProcessOf(l).Some? {
      StepIsMove(s, l);
      assert QueuesMatch(s.procs[l.p]);
      MoveFollows(s.procs[l.p], MoveOf(s, l));
      MoveCallsQuiet(s.procs[l.p], MoveOf(s, l));
      QuietCore(s, l.p, Do(s.procs[l.p], MoveOf(s, l)));
    }
  }

  /** The process step leaves the records that engines run on, and what the system knows about them. */
  lemma AfterMoveRecords(s: System, l: Label)
    requires Enabled(s, l) && AllQueuesMatch(s)
    requires l.StartEngine? || l.MarkWaiting? || l.Save? || l.EndEngine? || l.SaveFailure?
    ensures
      var s1 := AfterMove(s, l);
      && IsRecord(s1, l.p, l.c) && CallAt(s1, l.p, l.c).execution == CallAt(s, l.p, l.c).execution
      && s1.engines == s.engines && s1.holder == s.holder && s1.db == s.db
  {
  }

  lemma AfterEngineCore(s: System, s1: System, l: Label)
    requires Enabled(s, l) && Core(s1) && s1.engines == s.engines
    requires (l.StartEngine? || l.MarkWaiting? || l.Save? || l.EndEngine?) ==> IsRecord(s1, l.p, l.c)
    ensures Core(AfterEngine(s1, l))
  {
    match l {
      case StartEngine(p, c) => EngineCore(s1, p, c, Executing);
      case MarkWaiting(p, c) => EngineCore(s1, p, c, Marked);
      case Save(p, c, status) => EngineCore(s1, p, c, Saved);
      case EndEngine(p, c, outcome) => EngineCore(s1, p, c, Ended);
      case _ =>
    }
  }

  /** Only the holder's engine can still save. */
  lemma SaverHolds(s: System, p: nat, c: nat, status: Status)
    requires Core(s) && Enabled(s, Save(p, c, status))
    ensures Holds(s, CallAt(s, p, c).execution, Ref(p, c)) && CallAt(s, p, c).execution in s.db
  {
    assert CallHeld(s, p, c);
  }

  lemma QuietStepCore(s: System, l: Label)
    requires Core(s) && Enabled(s, l) && IsQuietStep(s, l)
    ensures Core(Apply(s, l))
  {
    QuietStepParts(s, l);
    AfterMoveCore(s, l);
    var s1 := AfterMove(s, l);
    var s2 := AfterEngine(s1, l);
    if l.StartEngine? || l.MarkWaiting? || l.Save? || l.EndEngine? || l.SaveFailure? { AfterMoveRecords(s, l); }
    AfterEngineCore(s, s1, l);
    match l {
      case StartEngine(p, c) => RowCore(s2, CallAt(s2, p, c).execution, Running);
      case Save(p, c, status) =>
        SaverHolds(s, p, c, status);
        RowCore(s2, CallAt(s2, p, c).execution, status);
      case SaveFailure(p, c) => RowCore(s2, CallAt(s2, p, c).execution, Error);
      case CancelRow(e) => RowCore(s2, e, Canceled);
      case _ =>
    }
  }

  lemma StepKeepsCore(s: System, l: Label)
    requires Core(s) && Enabled(s, l)
    ensures Core(Apply(s, l))
  {
    if IsQuietStep(s, l) {
      QuietStepCore(s, l);
    } else if l.CreateExecution? {
      CreateCore(s, l.p, l.e, l.mode);
    } else if l.SetRunning? {
      SetRunningCore(s, l.p, l.c);
    } else if l.InstallRecord? {
      InstallCore(s, l.p, l.c, l.now);
    } else {
      WinCore(s, l.p, l.c);
    }
  }

  /** Every step keeps it, whatever is stopped or shut down. */
  lemma {:induction false} RunKeepsCore(s: System, ls: seq<Label>)
    requires Core(s) && CanRun(s, ls)
    ensures Core(Run(s, ls))
    decreases |ls|
  {
    if ls != [] {
      StepKeepsCore(s, ls[0]);
      RunKeepsCore(Apply(s, ls[0]), ls[1..]);
    }
  }

  /**
   * From the start, in every run over any number of processes: at most one call or record of an execution is about to run
   * it or has a live engine, and none while its row waits.
   */
  lemma AtMostOneEngine(s: System, ls: seq<Label>, p: nat, c: nat, q: nat, d: nat)
    requires Init(s) && CanRun(s, ls)
    requires
      var s' := Run(s, ls);
      && IsCall(s', p, c) && Claims(CallAt(s', p, c), EngineOf(s', Ref(p, c)))
      && IsCall(s', q, d) && Claims(CallAt(s', q, d), EngineOf(s', Ref(q, d)))
      && CallAt(s', p, c).execution == CallAt(s', q, d).execution
    ensures Ref(p, c) == Ref(q, d) && !IsWaiting(Run(s, ls), CallAt(Run(s, ls), p, c).execution)
  {
    var s' := Run(s, ls);
    InitCore(s);
    RunKeepsCore(s, ls);
    assert CallHeld(s', p, c) && CallHeld(s', q, d) && RowHeld(s', CallAt(s', p, c).execution);
  }
}
