/** How the calls of a process go on in every run, stops and shutdowns included. */
module CallHistories {
  import opened Common
  import opened ExecutionTable
  import opened TableInvariants
  import opened ResumeProtocol
  import opened QuietSteps

  // ---------------------------------------------------------------------
  // What a step does to the process it runs on
  // ---------------------------------------------------------------------

  datatype Move =
    | Stay
    | BeginCall(e: ExecutionId, mode: Mode, resume: bool)
    | Decide(c: nat, phase: Phase)
    | ThrowCall(c: nat)
    | InstallCall(c: nat, now: int)
    | HandleCall(c: nat)
    | Update(e: ExecutionId, r: Record)
    | StopById(e: ExecutionId)
    | RemoveById(e: ExecutionId, mode: Mode)
    | ModeById(e: ExecutionId, responseMode: ResponseMode)
    | Pass(regularMode: bool, cancelAll: bool)

  predicate Allowed(p: Process, m: Move) {
    match m
    case Decide(c, phase) => c < |p.calls| && p.calls[c].phase.Reserved? && (phase.Won? || phase.Lost? || phase.Failed?)
    case ThrowCall(c) => CanThrow(p, c)
    case InstallCall(c, now) => CanInstall(p, c)
    case HandleCall(c) => CanHandle(p, c)
    case Update(e, r) =>
      Current(p, e).Some? && RecordFollows(Current(p, e).value, r) && r.handled == Current(p, e).value.handled
    case _ => true
  }

  function Do(p: Process, m: Move): Process
    requires Allowed(p, m)
  {
    match m
    case Stay => p
    case BeginCall(e, mode, resume) => Begin(p, e, mode, resume)
    case Decide(c, phase) => SetPhase(p, c, phase)
    case ThrowCall(c) => Throw(p, c)
    case InstallCall(c, now) => Install(p, c, now)
    case HandleCall(c) => Handle(p, c)
    case Update(e, r) => UpdateCurrent(p, e, r)
    case StopById(e) => Stop(p, e)
    case RemoveById(e, mode) => RemoveQueued(p, e, mode)
    case ModeById(e, responseMode) => SetResponseMode(p, e, responseMode)
    case Pass(regularMode, cancelAll) => ShutdownPass(p, regularMode, cancelAll)
  }

  /** The process on which a step runs. */
  function ProcessOf(l: Label): Option<nat> {
    if l.CancelRow? then None else Some(l.p)
  }

  function MoveOf(s: System, l: Label): Move
    requires Enabled(s, l) && ProcessOf(l).Some?
  {
    var proc := s.procs[l.p];
    match l
    case CreateExecution(_, e, mode) => BeginCall(e, mode, false)
    case BeginResume(_, e, mode) => BeginCall(e, mode, true)
    case SetRunning(_, c) => Decide(c, Won)
    case ConditionalUpdate(_, c) => Decide(c, if IsWaiting(s, proc.calls[c].execution) then Won else Lost)
    case FailUpdate(_, c) => Decide(c, Failed)
    case ThrowBack(_, c) => ThrowCall(c)
    case InstallRecord(_, c, now) => InstallCall(c, now)
    case MarkWaiting(_, c) =>
      var e := proc.calls[c].execution;
      if Current(proc, e).Some? then Update(e, Current(proc, e).value.(status := Waiting)) else Stay
    case EndEngine(_, c, outcome) =>
      var e := proc.calls[c].execution;
      if Current(proc, e).Some? && outcome != Threw(true) then
        Update(e, Current(proc, e).value.(promise := Settle(Current(proc, e).value.promise, Resolved)))
      else Stay
    case RunHandler(_, c) => HandleCall(c)
    case StopExecution(_, e) => StopById(e)
    case RemoveFromQueue(_, e, mode) => RemoveById(e, mode)
    case Attach(_, e, promise) =>
      if Current(proc, e).Some? then Update(e, Current(proc, e).value.(responsePromise := Some(promise))) else Stay
    case ChangeResponseMode(_, e, responseMode) => ModeById(e, responseMode)
    case Shutdown(_, regularMode, cancelAll) => Pass(regularMode, cancelAll)
    case _ => Stay
  }

  lemma OthersUntouched(s: System, l: Label, p: nat)
    requires Enabled(s, l) && p < |s.procs| && ProcessOf(l) != Some(p)
    ensures p < |Apply(s, l).procs| && Apply(s, l).procs[p] == s.procs[p]
  {
  }

  lemma StepIsMove(s: System, l: Label)
    requires Enabled(s, l) && ProcessOf(l).Some?
    ensures Allowed(s.procs[l.p], MoveOf(s, l)) && Apply(s, l).procs == s.procs[l.p := Do(s.procs[l.p], MoveOf(s, l))]
  {
  }

  // ---------------------------------------------------------------------
  // Every move lets every call go on as its phase allows
  // ---------------------------------------------------------------------

  /** Calls go on as their phases allow, and entries leave the table or are those of installed records. */
  ghost predicate Follows(p: Process, p': Process) {
    && |p.calls| <= |p'.calls|
    && (forall c: nat :: c < |p.calls| ==> CallFollows(p.calls[c], p'.calls[c]))
    && (forall e :: e in p'.table ==>
         (e in p.table && p'.table[e] == p.table[e]) || EntryOk(p', e, p'.table[e]))
    && (p'.enabled ==> p.enabled) && p'.limits == p.limits && p'.queues.Keys == p.queues.Keys
  }

  lemma FollowsTransitive(p: Process, q: Process, r: Process)
    requires Follows(p, q) && Follows(q, r)
    ensures Follows(p, r)
  {
    forall c: nat | c < |p.calls| ensures CallFollows(p.calls[c], r.calls[c]) {
      CallFollowsTransitive(p.calls[c], q.calls[c], r.calls[c]);
    }
    forall e | e in r.table && !(e in p.table && r.table[e] == p.table[e]) ensures EntryOk(r, e, r.table[e]) {
      if e in q.table && r.table[e] == q.table[e] {
        assert EntryOk(q, e, q.table[e]);
        assert CallFollows(q.calls[q.table[e]], r.calls[q.table[e]]);
      }
    }
  }

  lemma FollowsItself(p: Process)
    ensures Follows(p, p)
  {
  }

  lemma QuietFollows(p: Process, p': Process)
    requires Quiet(p, p') && p'.enabled == p.enabled && p'.limits == p.limits && p'.queues.Keys == p.queues.Keys
    ensures Follows(p, p')
  {
    forall c: nat | c < |p.calls| ensures CallFollows(p.calls[c], p'.calls[c]) {
      assert QuietCall(p.calls[c], p'.calls[c]);
    }
  }

  lemma SameRecordsFollows(p: Process, p': Process)
    requires SameRecords(p, p')
    ensures Follows(p, p')
  {
    forall c: nat | c < |p.calls| ensures CallFollows(p.calls[c], p'.calls[c]) {
      assert SameCall(p.calls[c], p'.calls[c]);
    }
  }

  lemma SetPhaseFollows(p: Process, c: nat, phase: Phase)
    requires QueuesMatch(p) && c < |p.calls| && !p.calls[c].phase.Queued? && PhaseFollows(p.calls[c].phase, phase)
    ensures QueuesMatch(SetPhase(p, c, phase)) && Follows(p, SetPhase(p, c, phase))
  {
    SetPhaseQueues(p, c, phase);
  }

  /** The queues depend on the calls only. */
  lemma TableQueues(p: Process, p': Process)
    requires QueuesMatch(p) && p'.calls == p.calls && p'.queues == p.queues
    ensures QueuesMatch(p')
  {
    forall q, w | q in p'.queues && w in p'.queues[q].waiting ensures Awaits(p', q, w) { WaitingFor(p, q, w); }
  }

  lemma InstallFollows(p: Process, c: nat, now: int)
    requires QueuesMatch(p) && CanInstall(p, c)
    ensures QueuesMatch(Install(p, c, now)) && Follows(p, Install(p, c, now))
  {
    var phase := Installed(NewRecord(p, p.calls[c].execution, now));
    SetPhaseFollows(p, c, phase);
    TableQueues(SetPhase(p, c, phase), Install(p, c, now));
  }

  lemma UpdateFollows(p: Process, e: ExecutionId, r: Record)
    requires QueuesMatch(p) && Current(p, e).Some? && RecordFollows(Current(p, e).value, r)
    ensures QueuesMatch(UpdateCurrent(p, e, r)) && Follows(p, UpdateCurrent(p, e, r))
  {
    SetPhaseFollows(p, p.table[e], Installed(r));
  }

  lemma StopFollows(p: Process, e: ExecutionId)
    requires QueuesMatch(p)
    ensures QueuesMatch(Stop(p, e)) && Follows(p, Stop(p, e))
  {
    if Current(p, e).Some? {
      var r := Current(p, e).value;
      if r.status == Waiting {
        TableQueues(p, Forget(p, e));
      } else {
        UpdateFollows(p, e, r.(promise := Settle(r.promise, Rejected)));
      }
    }
  }

  lemma HandleRecordQueues(p: Process, c: nat)
    requires QueuesMatch(p) && CanHandle(p, c)
    ensures QueuesMatch(HandleRecord(p, c))
  {
    var phase := Installed(RecordOf(p, c).(handled := true));
    SetPhaseQueues(p, c, phase);
    TableQueues(SetPhase(p, c, phase), HandleRecord(p, c));
  }

  lemma HandleFollows(p: Process, c: nat)
    requires QueuesMatch(p) && CanHandle(p, c)
    ensures QueuesMatch(Handle(p, c)) && Follows(p, Handle(p, c))
  {
    HandleRecordQueues(p, c);
    HandleIsRelease(p, c);
    ReleaseKeeps(HandleRecord(p, c), p.calls[c].mode);
    HandleQuiet(p, c);
    QuietFollows(p, Handle(p, c));
  }

  lemma CancelAllFollows(p: Process)
    requires QueuesMatch(p)
    ensures QueuesMatch(CancelAll(p)) && Follows(p, CancelAll(p))
  {
    var p' := CancelAll(p);
    forall q, w | q in p'.queues && w in p'.queues[q].waiting ensures Awaits(p', q, w) {
      WaitingFor(p, q, w);
      assert p'.calls[w.call] == CancelledCall(p, w.call);
    }
    forall c: nat | c < |p.calls| ensures CallFollows(p.calls[c], p'.calls[c]) {
      assert p'.calls[c] == CancelledCall(p, c);
    }
  }

  lemma ShutdownFollows(p: Process, regularMode: bool, cancelAll: bool)
    requires QueuesMatch(p)
    ensures QueuesMatch(ShutdownPass(p, regularMode, cancelAll)) && Follows(p, ShutdownPass(p, regularMode, cancelAll))
  {
    var p1 := if regularMode then p.(enabled := false) else p;
    TableQueues(p, p1);
    if regularMode && cancelAll { CancelAllFollows(p1); } else { TableQueues(p1, LetGo(p1)); }
  }

  lemma MoveFollows(p: Process, m: Move)
    requires QueuesMatch(p) && Allowed(p, m)
    ensures QueuesMatch(Do(p, m)) && Follows(p, Do(p, m))
  {
    match m {
      case Stay => FollowsItself(p);
      case BeginCall(e, mode, resume) =>
        BeginKeeps(p, e, mode, resume);
        SameRecordsFollows(p, Begin(p, e, mode, resume));
      case Decide(c, phase) => SetPhaseFollows(p, c, phase);
      case ThrowCall(c) =>
        ThrowKeeps(p, c);
        SameRecordsFollows(p, Throw(p, c));
      case InstallCall(c, now) => InstallFollows(p, c, now);
      case HandleCall(c) => HandleFollows(p, c);
      case Update(e, r) => UpdateFollows(p, e, r);
      case StopById(e) => StopFollows(p, e);
      case RemoveById(e, mode) =>
        RemoveQueuedKeeps(p, e, mode);
        SameRecordsFollows(p, RemoveQueued(p, e, mode));
      case ModeById(e, responseMode) =>
        FollowsItself(p);
        TableQueues(p, SetResponseMode(p, e, responseMode));
      case Pass(regularMode, cancelAll) => ShutdownFollows(p, regularMode, cancelAll);
    }
  }

  // ---------------------------------------------------------------------
  // Quiet moves
  // ---------------------------------------------------------------------

  predicate IsQuiet(m: Move) {
    !m.InstallCall? && (m.Decide? ==> !m.phase.Won?) && (m.BeginCall? ==> m.resume)
  }

  lemma PassCallsQuiet(p: Process, regularMode: bool, cancelAll: bool)
    ensures CallsQuiet(p, ShutdownPass(p, regularMode, cancelAll))
  {
    var p' := ShutdownPass(p, regularMode, cancelAll);
    forall c: nat | c < |p.calls| ensures QuietCall(p.calls[c], p'.calls[c]) {
      if regularMode && cancelAll { assert p'.calls[c] == CancelledCall(p.(enabled := false), c); }
    }
  }

  lemma BeginQuiet(p: Process, e: ExecutionId, mode: Mode)
    requires QueuesMatch(p)
    ensures Quiet(p, Begin(p, e, mode, true))
  {
    BeginKeeps(p, e, mode, true);
    SameRecordsQuiet(p, Begin(p, e, mode, true));
  }

  lemma DecideQuiet(p: Process, c: nat, phase: Phase)
    requires QueuesMatch(p) && Allowed(p, Decide(c, phase)) && !phase.Won?
    ensures Quiet(p, SetPhase(p, c, phase))
  {
    SetPhaseQueues(p, c, phase);
    SameRecordsQuiet(p, SetPhase(p, c, phase));
  }

  lemma ThrowQuiet(p: Process, c: nat)
    requires QueuesMatch(p) && CanThrow(p, c)
    ensures Quiet(p, Throw(p, c))
  {
    ThrowKeeps(p, c);
    SameRecordsQuiet(p, Throw(p, c));
  }

  lemma RemoveQueuedQuiet(p: Process, e: ExecutionId, mode: Mode)
    requires QueuesMatch(p)
    ensures Quiet(p, RemoveQueued(p, e, mode))
  {
    RemoveQueuedKeeps(p, e, mode);
    SameRecordsQuiet(p, RemoveQueued(p, e, mode));
  }

  /** Every quiet move but a shutdown pass. */
  lemma MoveQuiet(p: Process, m: Move)
    requires QueuesMatch(p) && Allowed(p, m) && IsQuiet(m) && !m.Pass?
    ensures Quiet(p, Do(p, m))
  {
    match m {
      case HandleCall(c) => HandleQuiet(p, c);
      case Update(e, r) => SetRecordQuiet(p, p.table[e], r);
      case StopById(e) => StopQuiet(p, e);
      case ModeById(e, responseMode) =>
      case Stay =>
      case BeginCall(e, mode, resume) => BeginQuiet(p, e, mode);
      case Decide(c, phase) => DecideQuiet(p, c, phase);
      case ThrowCall(c) => ThrowQuiet(p, c);
      case RemoveById(e, mode) => RemoveQueuedQuiet(p, e, mode);
    }
  }

  lemma MoveCallsQuiet(p: Process, m: Move)
    requires QueuesMatch(p) && Allowed(p, m) && IsQuiet(m)
    ensures CallsQuiet(p, Do(p, m))
  {
    if m.Pass? { PassCallsQuiet(p, m.regularMode, m.cancelAll); } else { MoveQuiet(p, m); }
  }

  lemma EntriesStay(p: Process, p': Process)
    requires EntriesOk(p) && Follows(p, p')
    ensures EntriesOk(p')
  {
    forall e | e in p'.table ensures EntryOk(p', e, p'.table[e]) {
      if e in p.table && p'.table[e] == p.table[e] {
        assert EntryOk(p, e, p.table[e]) && CallFollows(p.calls[p.table[e]], p'.calls[p.table[e]]);
      }
    }
  }

  // ---------------------------------------------------------------------
  // Runs
  // ---------------------------------------------------------------------

  ghost predicate AllQueuesMatch(s: System) {
    forall p: nat :: p < |s.procs| ==> QueuesMatch(s.procs[p])
  }

  /** Every step, in every process. */
  lemma StepFollows(s: System, l: Label, p: nat)
    requires AllQueuesMatch(s) && Enabled(s, l) && p < |s.procs|
    ensures p < |Apply(s, l).procs| && QueuesMatch(Apply(s, l).procs[p]) && Follows(s.procs[p], Apply(s, l).procs[p])
  {
    if ProcessOf(l) != Some(p) {
      OthersUntouched(s, l, p);
      FollowsItself(s.procs[p]);
    } else {
      StepIsMove(s, l);
      MoveFollows(s.procs[p], MoveOf(s, l));
    }
  }

  lemma StepKeepsLength(s: System, l: Label)
    requires Enabled(s, l)
    ensures |Apply(s, l).procs| == |s.procs|
  {
  }

  lemma StepQueues(s: System, l: Label)
    requires AllQueuesMatch(s) && Enabled(s, l)
    ensures AllQueuesMatch(Apply(s, l)) && |Apply(s, l).procs| == |s.procs|
  {
    StepKeepsLength(s, l);
    forall p: nat | p < |s.procs| ensures QueuesMatch(Apply(s, l).procs[p]) { StepFollows(s, l, p); }
  }

  /** In every run each call goes on as its phase allows. */
  lemma {:induction false} RunFollows(s: System, ls: seq<Label>, p: nat)
    requires AllQueuesMatch(s) && CanRun(s, ls) && p < |s.procs|
    ensures |Run(s, ls).procs| == |s.procs| && AllQueuesMatch(Run(s, ls))
    ensures Follows(s.procs[p], Run(s, ls).procs[p])
    decreases |ls|
  {
    if ls == [] {
      FollowsItself(s.procs[p]);
    } else {
      StepQueues(s, ls[0]);
      StepFollows(s, ls[0], p);
      RunFollows(Apply(s, ls[0]), ls[1..], p);
      FollowsTransitive(s.procs[p], Apply(s, ls[0]).procs[p], Run(s, ls).procs[p]);
    }
  }

  // ---------------------------------------------------------------------
  // Losers and slots
  // ---------------------------------------------------------------------

  /** Whatever happens next, a loser can only throw that the execution is already resuming, and a winner only install. */
  lemma LoserOnlyThrows(s: System, ls: seq<Label>, p: nat, c: nat)
    requires AllQueuesMatch(s) && CanRun(s, ls) && IsCall(s, p, c)
    ensures IsCall(Run(s, ls), p, c)
    ensures CallAt(s, p, c).phase.Lost? ==>
      var phase := CallAt(Run(s, ls), p, c).phase;
      phase.Lost? || phase.ThrewAlreadyResuming?
    ensures CallAt(s, p, c).phase.Won? ==>
      var phase := CallAt(Run(s, ls), p, c).phase;
      phase.Won? || phase.Installed?
  {
    RunFollows(s, ls, p);
    assert CallFollows(CallAt(s, p, c), CallAt(Run(s, ls), p, c));
  }

  /** A call that has given its slot back, or never gets one, has none in any later state. */
  lemma SlotIsGivenBackOnce(s: System, ls: seq<Label>, p: nat, c: nat, q: QueueType)
    requires AllQueuesMatch(s) && CanRun(s, ls) && IsCall(s, p, c)
    requires !HoldsSlot(CallAt(s, p, c), q) && !CallAt(s, p, c).phase.Queued?
    ensures IsCall(Run(s, ls), p, c) && !HoldsSlot(CallAt(Run(s, ls), p, c), q)
  {
    RunFollows(s, ls, p);
    assert CallFollows(CallAt(s, p, c), CallAt(Run(s, ls), p, c));
  }
}
