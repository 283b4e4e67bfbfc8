/**
 * The state of one process's table of executions and the atomic steps on it: the stretches of
 * `ActiveExecutions` code between two awaits (packages/cli/src/active-executions.ts), with the slots
 * of the concurrency control service (packages/cli/src/concurrency).
 */
module ExecutionTable {
  import opened Common
  import Slots = ConcurrencyQueue

  type ExecutionId = Slots.ExecutionId
  type ResponseMode = string

  datatype Mode = Webhook | Trigger | Chat | Evaluation | Manual | Integrated | ErrorRun | Cli | Internal | Retry

  datatype QueueType = Production | Evaluations

  /** Which queue, if any, limits executions of this mode. */
  function QueueFor(mode: Mode): Option<QueueType> {
    match mode
    case Webhook => Some(Production)
    case Trigger => Some(Production)
    case Chat => Some(Production)
    case Evaluation => Some(Evaluations)
    case _ => None
  }

  datatype Status = New | Running | Waiting | Success | Error | Canceled | Crashed | Unknown

  /** A deferred promise. Settling it a second time does nothing. */
  datatype Promise = Pending | Resolved | Rejected

  function Settle(p: Promise, outcome: Promise): Promise {
    if p.Pending? then outcome else p
  }

  /**
   * An entry of the table: when it started, the response promise it carries, its status, its
   * post-execute promise, and whether that promise's settle handler has run.
   */
  datatype Record = Record(startedAt: int, responsePromise: Option<nat>, status: Status, promise: Promise, handled: bool)

  /**
   * How far an `add` call has got. `Queued` and `Reserved` are before the database call, `Won`, `Lost`
   * and `Failed` after it, and then the call has installed its record or thrown. A dropped call never continues.
   */
  datatype Phase =
    | Queued
    | Reserved
    | Won
    | Lost
    | Failed
    | ThrewAlreadyResuming
    | ThrewDatabaseError
    | Dropped
    | Installed(record: Record)

  /** One `add` call; the settle handler of its record is the closure made by this call. */
  datatype Call = Call(execution: ExecutionId, mode: Mode, resume: bool, phase: Phase)

  /**
   * `table` maps an execution to the call whose record is current. `latest` is a history: the call that
   * installed a record for the execution last.
   */
  datatype Process = Process(
    enabled: bool,
    limits: map<QueueType, nat>,
    queues: map<QueueType, Slots.State>,
    calls: seq<Call>,
    table: map<ExecutionId, nat>,
    responseModes: map<ExecutionId, ResponseMode>,
    latest: map<ExecutionId, nat>)

  predicate IsInstalled(p: Process, c: nat) {
    c < |p.calls| && p.calls[c].phase.Installed?
  }

  function RecordOf(p: Process, c: nat): Record
    requires IsInstalled(p, c)
  {
    p.calls[c].phase.record
  }

  /** The record that a lookup by id finds. */
  function Current(p: Process, e: ExecutionId): Option<Record> {
    if e in p.table && IsInstalled(p, p.table[e]) then Some(RecordOf(p, p.table[e])) else None
  }

  function SetPhase(p: Process, c: nat, phase: Phase): Process
    requires c < |p.calls|
  {
    p.(calls := p.calls[c := p.calls[c].(phase := phase)])
  }

  function SetRecord(p: Process, c: nat, r: Record): Process
    requires c < |p.calls|
  {
    SetPhase(p, c, Installed(r))
  }

  // ---------------------------------------------------------------------
  // Slots
  // ---------------------------------------------------------------------

  /** The queue a call of this mode goes through: none when the service is disabled or the mode is unlimited. */
  function QueueOf(p: Process, mode: Mode): Option<QueueType> {
    if p.enabled && QueueFor(mode).Some? && QueueFor(mode).value in p.queues then QueueFor(mode) else None
  }

  /** A queued call is let through. */
  function Grant(p: Process, next: Option<Slots.Waiter>): Process {
    if next.Some? && next.value.call < |p.calls| then SetPhase(p, next.value.call, Reserved) else p
  }

  /** `resolveNext` on one queue: the call at its head continues. */
  function ResolveNext(p: Process, q: QueueType): Process
    requires q in p.queues
  {
    Grant(p.(queues := p.queues[q := Slots.NextResolved(p.queues[q])]), Slots.Next(p.queues[q]))
  }

  function AddCapacity(p: Process, q: QueueType): Process
    requires q in p.queues
  {
    p.(queues := p.queues[q := p.queues[q].(capacity := p.queues[q].capacity + 1)])
  }

  function Release(p: Process, mode: Mode): Process {
    match QueueOf(p, mode)
    case None => p
    case Some(q) => ResolveNext(AddCapacity(p, q), q)
  }

  /** The first queued promise of the execution leaves the queue; its call never continues. */
  function DropQueued(p: Process, q: QueueType, e: ExecutionId): Process
    requires q in p.queues && Slots.Has(p.queues[q], e)
  {
    var s := p.queues[q];
    var dropped := s.waiting[Slots.FindIndex(s.waiting, e)].call;
    var p' := p.(queues := p.queues[q := Slots.Drop(s, e)]);
    if dropped < |p.calls| then SetPhase(p', dropped, Dropped) else p'
  }

  /** `concurrencyControl.remove`, used when an execution is stopped before it runs. */
  function RemoveQueued(p: Process, e: ExecutionId, mode: Mode): Process {
    match QueueOf(p, mode)
    case None => p
    case Some(q) => if Slots.Has(p.queues[q], e) then ResolveNext(DropQueued(p, q, e), q) else p
  }

  // ---------------------------------------------------------------------
  // The steps of `add`
  // ---------------------------------------------------------------------

  /** The call reserves a slot or queues for one. */
  function Begin(p: Process, e: ExecutionId, mode: Mode, resume: bool): Process {
    match QueueOf(p, mode)
    case None => p.(calls := p.calls + [Call(e, mode, resume, Reserved)])
    case Some(q) =>
      var s := p.queues[q];
      p.(queues := p.queues[q := Slots.Enqueued(s, Slots.Waiter(e, |p.calls|))],
         calls := p.calls + [Call(e, mode, resume, if Slots.GrantsAtOnce(s) then Reserved else Queued)])
  }

  predicate CanThrow(p: Process, c: nat) {
    c < |p.calls| && (p.calls[c].phase.Lost? || p.calls[c].phase.Failed?)
  }

  /** The catch block: the slot goes back and the call throws. */
  function Throw(p: Process, c: nat): Process
    requires CanThrow(p, c)
  {
    Release(SetPhase(p, c, if p.calls[c].phase.Lost? then ThrewAlreadyResuming else ThrewDatabaseError), p.calls[c].mode)
  }

  predicate CanInstall(p: Process, c: nat) {
    c < |p.calls| && p.calls[c].phase.Won?
  }

  /** The record that the call puts in the table. */
  function NewRecord(p: Process, e: ExecutionId, now: int): Record {
    match Current(p, e)
    case Some(r) => Record(r.startedAt, r.responsePromise, Running, Pending, false)
    case None => Record(now, None, Running, Pending, false)
  }

  function Install(p: Process, c: nat, now: int): Process
    requires CanInstall(p, c)
  {
    var e := p.calls[c].execution;
    SetRecord(p, c, NewRecord(p, e, now)).(table := p.table[e := c], latest := p.latest[e := c])
  }

  predicate CanHandle(p: Process, c: nat) {
    IsInstalled(p, c) && !RecordOf(p, c).promise.Pending? && !RecordOf(p, c).handled
  }

  /** The settle handler: it reads the status of its own record, but deletes by id. */
  function Handle(p: Process, c: nat): Process
    requires CanHandle(p, c)
  {
    var e, r := p.calls[c].execution, RecordOf(p, c);
    var p' := Release(SetRecord(p, c, r.(handled := true)), p.calls[c].mode);
    if r.status == Waiting then p' else Forget(p', e)
  }

  function Forget(p: Process, e: ExecutionId): Process {
    p.(table := p.table - {e}, responseModes := p.responseModes - {e})
  }

  // ---------------------------------------------------------------------
  // Operations by id
  // ---------------------------------------------------------------------

  function UpdateCurrent(p: Process, e: ExecutionId, r: Record): Process
    requires Current(p, e).Some?
  {
    SetRecord(p, p.table[e], r)
  }

  /** Throws, and changes nothing, when the execution is not in the table. */
  function SetStatus(p: Process, e: ExecutionId, status: Status): Process {
    if Current(p, e).Some? then UpdateCurrent(p, e, Current(p, e).value.(status := status)) else p
  }

  function AttachResponsePromise(p: Process, e: ExecutionId, promise: nat): Process {
    if Current(p, e).Some? then UpdateCurrent(p, e, Current(p, e).value.(responsePromise := Some(promise))) else p
  }

  function SetResponseMode(p: Process, e: ExecutionId, mode: ResponseMode): Process {
    p.(responseModes := p.responseModes[e := mode])
  }

  /** A waiting record is dropped from the table and its promise left alone; any other is rejected in place. */
  function Stop(p: Process, e: ExecutionId): Process {
    match Current(p, e)
    case None => p
    case Some(r) =>
      if r.status == Waiting then Forget(p, e)
      else UpdateCurrent(p, e, r.(promise := Settle(r.promise, Rejected)))
  }

  function Finalize(p: Process, e: ExecutionId): Process {
    match Current(p, e)
    case None => p
    case Some(r) => UpdateCurrent(p, e, r.(promise := Settle(r.promise, Resolved)))
  }

  // ---------------------------------------------------------------------
  // The first pass of `shutdown`
  // ---------------------------------------------------------------------

  /** The call's record is the current one of its execution. */
  predicate InTable(p: Process, c: nat) {
    IsInstalled(p, c) && p.calls[c].execution in p.table && p.table[p.calls[c].execution] == c
  }

  predicate StatusIs(p: Process, e: ExecutionId, status: Status) {
    Current(p, e).Some? && Current(p, e).value.status == status
  }

  function CancelledCall(p: Process, c: nat): Call
    requires c < |p.calls|
  {
    if InTable(p, c) && RecordOf(p, c).status != Waiting then
      var r := RecordOf(p, c);
      p.calls[c].(phase := Installed(r.(promise := Settle(r.promise, Rejected))))
    else p.calls[c]
  }

  /** Every execution is stopped: waiting ones leave the table, the others are rejected. */
  function CancelAll(p: Process): Process {
    p.(calls := seq(|p.calls|, c requires 0 <= c < |p.calls| => CancelledCall(p, c)),
       table := map e | e in p.table && !StatusIs(p, e, Waiting) :: p.table[e],
       responseModes := map e | e in p.responseModes && !StatusIs(p, e, Waiting) :: p.responseModes[e])
  }

  /** Without cancelling, waiting and new executions leave the table so that they do not block the shutdown. */
  function LetGo(p: Process): Process {
    p.(table := map e | e in p.table && !StatusIs(p, e, Waiting) && !StatusIs(p, e, New) :: p.table[e])
  }

  function ShutdownPass(p: Process, regularMode: bool, cancelAll: bool): Process {
    var p' := if regularMode then p.(enabled := false) else p;
    if regularMode && cancelAll then CancelAll(p') else LetGo(p')
  }
}
