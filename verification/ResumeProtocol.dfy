/**
 * Several processes running, waiting and resuming executions over one database: every interleaving of the steps of
 * `ActiveExecutions`, of the engines that `WorkflowRunner` starts, of timers, child completions and other callers
 * that try to resume, and of stops (packages/cli/src/active-executions.ts, workflow-runner.ts, wait-tracker.ts).
 */
module ResumeProtocol {
  import opened Common
  import opened ExecutionTable
  import opened TableInvariants

  /** An `add` call of a process; also names the record it installs and the engine run on that record. */
  datatype Ref = Ref(process: nat, call: nat)

  /** The engine of a record: it may mark the execution as waiting, then saves its outcome, then its promise settles. */
  datatype Engine = Idle | Executing | Marked | Saved | Ended

  /** How an engine's promise settles; a cancel-like error is one that `processError` ignores. */
  datatype Outcome = Completed | Threw(cancelLike: bool)

  /**
   * `db` is the status column. `holder` is a history: the call that created the execution or that
   * last won the conditional update for it.
   */
  datatype System = System(
    db: map<ExecutionId, Status>,
    holder: map<ExecutionId, Ref>,
    engines: map<Ref, Engine>,
    procs: seq<Process>)

  datatype Label =
    | CreateExecution(p: nat, e: ExecutionId, mode: Mode)
    | BeginResume(p: nat, e: ExecutionId, mode: Mode)
    | SetRunning(p: nat, c: nat)
    | ConditionalUpdate(p: nat, c: nat)
    | FailUpdate(p: nat, c: nat)
    | ThrowBack(p: nat, c: nat)
    | InstallRecord(p: nat, c: nat, now: int)
    | StartEngine(p: nat, c: nat)
    | MarkWaiting(p: nat, c: nat)
    | Save(p: nat, c: nat, status: Status)
    | EndEngine(p: nat, c: nat, outcome: Outcome)
    | SaveFailure(p: nat, c: nat)
    | RunHandler(p: nat, c: nat)
    | StopExecution(p: nat, e: ExecutionId)
    | CancelRow(e: ExecutionId)
    | RemoveFromQueue(p: nat, e: ExecutionId, mode: Mode)
    | Attach(p: nat, e: ExecutionId, promise: nat)
    | ChangeResponseMode(p: nat, e: ExecutionId, responseMode: ResponseMode)
    | Shutdown(p: nat, regularMode: bool, cancelAll: bool)

  function EngineOf(s: System, r: Ref): Engine {
    if r in s.engines then s.engines[r] else Idle
  }

  predicate IsCall(s: System, p: nat, c: nat) {
    p < |s.procs| && c < |s.procs[p].calls|
  }

  predicate IsRecord(s: System, p: nat, c: nat) {
    p < |s.procs| && IsInstalled(s.procs[p], c)
  }

  function CallAt(s: System, p: nat, c: nat): Call
    requires IsCall(s, p, c)
  {
    s.procs[p].calls[c]
  }

  function RecordAt(s: System, p: nat, c: nat): Record
    requires IsRecord(s, p, c)
  {
    RecordOf(s.procs[p], c)
  }

  predicate IsWaiting(s: System, e: ExecutionId) {
    e in s.db && s.db[e] == Waiting
  }

  /** What a save can write: a final status, or waiting when the engine has been put to wait. */
  predicate Savable(engine: Engine, status: Status) {
    match status
    case Waiting => engine == Marked
    case Success => true
    case Error => true
    case Canceled => true
    case Crashed => true
    case _ => false
  }

  predicate Enabled(s: System, l: Label) {
    match l
    case CreateExecution(p, e, mode) => p < |s.procs| && e !in s.db
    case BeginResume(p, e, mode) => p < |s.procs|
    case SetRunning(p, c) => IsCall(s, p, c) && CallAt(s, p, c).phase.Reserved? && !CallAt(s, p, c).resume
    case ConditionalUpdate(p, c) => IsCall(s, p, c) && CallAt(s, p, c).phase.Reserved? && CallAt(s, p, c).resume
    case FailUpdate(p, c) => IsCall(s, p, c) && CallAt(s, p, c).phase.Reserved?
    case ThrowBack(p, c) => p < |s.procs| && CanThrow(s.procs[p], c)
    case InstallRecord(p, c, now) => p < |s.procs| && CanInstall(s.procs[p], c)
    case StartEngine(p, c) => IsRecord(s, p, c) && EngineOf(s, Ref(p, c)) == Idle
    case MarkWaiting(p, c) => IsRecord(s, p, c) && EngineOf(s, Ref(p, c)) == Executing
    case Save(p, c, status) =>
      IsRecord(s, p, c) && EngineOf(s, Ref(p, c)) in {Idle, Executing, Marked} && Savable(EngineOf(s, Ref(p, c)), status)
    case EndEngine(p, c, outcome) => IsRecord(s, p, c) && EngineOf(s, Ref(p, c)) != Ended
    case SaveFailure(p, c) => IsRecord(s, p, c) && EngineOf(s, Ref(p, c)) == Ended
    case RunHandler(p, c) => p < |s.procs| && CanHandle(s.procs[p], c)
    case StopExecution(p, e) => p < |s.procs|
    case CancelRow(e) => e in s.db
    case RemoveFromQueue(p, e, mode) => p < |s.procs|
    case Attach(p, e, promise) => p < |s.procs|
    case ChangeResponseMode(p, e, responseMode) => p < |s.procs|
    case Shutdown(p, regularMode, cancelAll) => p < |s.procs| && (regularMode || !s.procs[p].enabled)
  }

  function WithProc(s: System, p: nat, proc: Process): System
    requires p < |s.procs|
  {
    s.(procs := s.procs[p := proc])
  }

  function WithEngine(s: System, r: Ref, engine: Engine): System {
    s.(engines := s.engines[r := engine])
  }

  function WithStatus(s: System, e: ExecutionId, status: Status): System {
    s.(db := s.db[e := status])
  }

  function Apply(s: System, l: Label): System
    requires Enabled(s, l)
  {
    match l
    case CreateExecution(p, e, mode) =>
      WithProc(s, p, Begin(s.procs[p], e, mode, false))
        .(db := s.db[e := New], holder := s.holder[e := Ref(p, |s.procs[p].calls|)])
    case BeginResume(p, e, mode) => WithProc(s, p, Begin(s.procs[p], e, mode, true))
    case SetRunning(p, c) => WithStatus(WithProc(s, p, SetPhase(s.procs[p], c, Won)), CallAt(s, p, c).execution, Running)
    case ConditionalUpdate(p, c) =>
      var e := CallAt(s, p, c).execution;
      if IsWaiting(s, e) then
        WithStatus(WithProc(s, p, SetPhase(s.procs[p], c, Won)), e, Running).(holder := s.holder[e := Ref(p, c)])
      else WithProc(s, p, SetPhase(s.procs[p], c, Lost))
    case FailUpdate(p, c) => WithProc(s, p, SetPhase(s.procs[p], c, Failed))
    case ThrowBack(p, c) => WithProc(s, p, Throw(s.procs[p], c))
    case InstallRecord(p, c, now) => WithProc(s, p, Install(s.procs[p], c, now))
    case StartEngine(p, c) => WithEngine(WithStatus(s, CallAt(s, p, c).execution, Running), Ref(p, c), Executing)
    case MarkWaiting(p, c) =>
      WithEngine(WithProc(s, p, SetStatus(s.procs[p], CallAt(s, p, c).execution, Waiting)), Ref(p, c), Marked)
    case Save(p, c, status) => WithEngine(WithStatus(s, CallAt(s, p, c).execution, status), Ref(p, c), Saved)
    case EndEngine(p, c, outcome) =>
      var s' := if outcome == Threw(true) then s else WithProc(s, p, Finalize(s.procs[p], CallAt(s, p, c).execution));
      WithEngine(s', Ref(p, c), Ended)
    case SaveFailure(p, c) => WithStatus(s, CallAt(s, p, c).execution, Error)
    case RunHandler(p, c) => WithProc(s, p, Handle(s.procs[p], c))
    case StopExecution(p, e) => WithProc(s, p, Stop(s.procs[p], e))
    case CancelRow(e) => WithStatus(s, e, Canceled)
    case RemoveFromQueue(p, e, mode) => WithProc(s, p, RemoveQueued(s.procs[p], e, mode))
    case Attach(p, e, promise) => WithProc(s, p, AttachResponsePromise(s.procs[p], e, promise))
    case ChangeResponseMode(p, e, responseMode) => WithProc(s, p, SetResponseMode(s.procs[p], e, responseMode))
    case Shutdown(p, regularMode, cancelAll) => WithProc(s, p, ShutdownPass(s.procs[p], regularMode, cancelAll))
  }

  // ---------------------------------------------------------------------
  // The start
  // ---------------------------------------------------------------------

  /** Every process starts with an empty table, over an empty database. */
  ghost predicate Init(s: System) {
    && s.db == map[] && s.holder == map[] && s.engines == map[]
    && forall p: nat :: p < |s.procs| ==> Fresh(s.procs[p])
  }

  predicate Fresh(p: Process) {
    && p.calls == [] && p.table == map[] && p.latest == map[] && p.responseModes == map[]
    && p.queues.Keys <= p.limits.Keys
    && forall q :: q in p.queues ==> p.queues[q].waiting == [] && p.queues[q].capacity == p.limits[q]
  }

  // ---------------------------------------------------------------------
  // Runs
  // ---------------------------------------------------------------------

  predicate CanRun(s: System, ls: seq<Label>)
    decreases |ls|
  {
    ls == [] || (Enabled(s, ls[0]) && CanRun(Apply(s, ls[0]), ls[1..]))
  }

  function Run(s: System, ls: seq<Label>): System
    requires CanRun(s, ls)
    decreases |ls|
  {
    if ls == [] then s else Run(Apply(s, ls[0]), ls[1..])
  }

  lemma Prepend(s: System, l: Label, ls: seq<Label>)
    requires Enabled(s, l) && CanRun(Apply(s, l), ls)
    ensures CanRun(s, [l] + ls) && Run(s, [l] + ls) == Run(Apply(s, l), ls)
  {
    assert ([l] + ls)[1..] == ls;
  }

  // ---------------------------------------------------------------------
  // At most one resume for each entry into waiting
  // ---------------------------------------------------------------------

  /** The step writes 'waiting' to the execution's row. */
  predicate Enters(s: System, l: Label, e: ExecutionId) {
    l.Save? && IsCall(s, l.p, l.c) && CallAt(s, l.p, l.c).execution == e && l.status == Waiting
  }

  /** The step is a conditional update of the execution that matches its row. */
  predicate Wins(s: System, l: Label, e: ExecutionId) {
    l.ConditionalUpdate? && IsCall(s, l.p, l.c) && CallAt(s, l.p, l.c).execution == e && IsWaiting(s, e)
  }

  function CountEntries(s: System, ls: seq<Label>, e: ExecutionId): nat
    requires CanRun(s, ls)
    decreases |ls|
  {
    if ls == [] then 0 else (if Enters(s, ls[0], e) then 1 else 0) + CountEntries(Apply(s, ls[0]), ls[1..], e)
  }

  function CountWins(s: System, ls: seq<Label>, e: ExecutionId): nat
    requires CanRun(s, ls)
    decreases |ls|
  {
    if ls == [] then 0 else (if Wins(s, ls[0], e) then 1 else 0) + CountWins(Apply(s, ls[0]), ls[1..], e)
  }

  function Waits(s: System, e: ExecutionId): nat {
    if IsWaiting(s, e) then 1 else 0
  }

  lemma WaitsStep(s: System, l: Label, e: ExecutionId)
    requires Enabled(s, l)
    ensures Waits(Apply(s, l), e) + (if Wins(s, l, e) then 1 else 0) <= Waits(s, e) + (if Enters(s, l, e) then 1 else 0)
  {
  }

  /**
   * In every stretch of every run, over any number of processes and callers, the successful resumes of an execution
   * are at most the entries into waiting in that stretch, plus one if it was waiting at the start.
   */
  lemma {:induction false} ResumesNeverExceedEntries(s: System, ls: seq<Label>, e: ExecutionId)
    requires CanRun(s, ls)
    ensures CountWins(s, ls, e) + Waits(Run(s, ls), e) <= CountEntries(s, ls, e) + Waits(s, e)
    decreases |ls|
  {
    if ls != [] {
      WaitsStep(s, ls[0], e);
      ResumesNeverExceedEntries(Apply(s, ls[0]), ls[1..], e);
    }
  }

  /** Between two entries of an execution into waiting, and after the last one, at most one resume succeeds. */
  lemma AtMostOneResumePerEntry(s: System, ls: seq<Label>, e: ExecutionId)
    requires CanRun(s, ls) && CountEntries(s, ls, e) == 0
    ensures CountWins(s, ls, e) <= 1
    ensures !IsWaiting(s, e) ==> CountWins(s, ls, e) == 0
  {
    ResumesNeverExceedEntries(s, ls, e);
  }

  /** Of two callers that race to resume a waiting execution, on whatever processes, the first wins and the second loses. */
  lemma FirstOfTwoWins(s: System, p: nat, c: nat, q: nat, d: nat)
    requires Enabled(s, ConditionalUpdate(p, c)) && Enabled(s, ConditionalUpdate(q, d)) && Ref(p, c) != Ref(q, d)
    requires CallAt(s, p, c).execution == CallAt(s, q, d).execution && IsWaiting(s, CallAt(s, p, c).execution)
    ensures
      var ls := [ConditionalUpdate(p, c), ConditionalUpdate(q, d)];
      && CanRun(s, ls)
      && var s' := Run(s, ls);
      && IsCall(s', p, c) && CallAt(s', p, c).phase.Won?
      && IsCall(s', q, d) && CallAt(s', q, d).phase.Lost?
      && Lookup(s'.holder, CallAt(s, p, c).execution) == Some(Ref(p, c))
  {
    var k, l := ConditionalUpdate(p, c), ConditionalUpdate(q, d);
    var s1 := Apply(s, k);
    assert CallAt(s1, q, d) == CallAt(s, q, d);
    Prepend(s1, l, []);
    Prepend(s, k, [l]);
    assert [k] + [l] == [k, l] && [l] + [] == [l];
  }

  // ---------------------------------------------------------------------
  // The row says what was written last
  // ---------------------------------------------------------------------

  /** The step is one of a call for this execution. */
  predicate Concerns(s: System, l: Label, e: ExecutionId) {
    && (l.SetRunning? || l.ConditionalUpdate? || l.StartEngine? || l.Save? || l.SaveFailure?)
    && IsCall(s, l.p, l.c) && CallAt(s, l.p, l.c).execution == e
  }

  /** Nothing but creating, starting, winning, saving and cancelling writes a row, and each writes its own status. */
  lemma RowAfterStep(s: System, l: Label, e: ExecutionId)
    requires Enabled(s, l)
    ensures
      var row := Lookup(Apply(s, l).db, e);
      && (l.CreateExecution? && l.e == e ==> row == Some(New))
      && (l.CancelRow? && l.e == e ==> row == Some(Canceled))
      && (Concerns(s, l, e) && (l.SetRunning? || l.StartEngine?) ==> row == Some(Running))
      && (Concerns(s, l, e) && l.ConditionalUpdate? ==>
            row == if Lookup(s.db, e) == Some(Waiting) then Some(Running) else Lookup(s.db, e))
      && (Concerns(s, l, e) && l.Save? ==> row == Some(l.status))
      && (Concerns(s, l, e) && l.SaveFailure? ==> row == Some(Error))
      && (!Concerns(s, l, e) && !((l.CreateExecution? || l.CancelRow?) && l.e == e) ==> row == Lookup(s.db, e))
  {
  }

  /** No step of the run writes the execution's row. */
  predicate RowLeftAlone(s: System, ls: seq<Label>, e: ExecutionId)
    requires CanRun(s, ls)
    decreases |ls|
  {
    ls == [] ||
    (&& !Concerns(s, ls[0], e) && !((ls[0].CreateExecution? || ls[0].CancelRow?) && ls[0].e == e)
     && RowLeftAlone(Apply(s, ls[0]), ls[1..], e))
  }

  lemma {:induction false} RowStays(s: System, ls: seq<Label>, e: ExecutionId)
    requires CanRun(s, ls) && RowLeftAlone(s, ls, e)
    ensures Lookup(Run(s, ls).db, e) == Lookup(s.db, e)
    decreases |ls|
  {
    if ls != [] {
      RowAfterStep(s, ls[0], e);
      RowStays(Apply(s, ls[0]), ls[1..], e);
    }
  }

  /** A row says what the engine saved last, until somebody else writes it. */
  lemma RowSaysWhatWasSaved(s: System, p: nat, c: nat, status: Status, ls: seq<Label>, e: ExecutionId)
    requires Enabled(s, Save(p, c, status)) && CallAt(s, p, c).execution == e
    requires CanRun(Apply(s, Save(p, c, status)), ls) && RowLeftAlone(Apply(s, Save(p, c, status)), ls, e)
    ensures Lookup(Run(Apply(s, Save(p, c, status)), ls).db, e) == Some(status)
  {
    RowAfterStep(s, Save(p, c, status), e);
    RowStays(Apply(s, Save(p, c, status)), ls, e);
  }
}
