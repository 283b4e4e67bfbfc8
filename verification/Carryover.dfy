/** What is carried from one record of an execution to the next (packages/cli/src/active-executions.ts:129-157). */
module Carryover {
  import opened Common
  import opened ExecutionTable
  import opened TableInvariants
  import opened ResumeProtocol
  import opened CallHistories

  /** The start time, response promise and response mode that an execution has in the process. */
  datatype Carried = Carried(startedAt: int, responsePromise: Option<nat>, responseMode: Option<ResponseMode>)

  predicate Has(p: Process, e: ExecutionId) {
    Current(p, e).Some?
  }

  function CarriedBy(p: Process, e: ExecutionId): Carried
    requires Has(p, e)
  {
    var r := Current(p, e).value;
    Carried(r.startedAt, r.responsePromise, Lookup(p.responseModes, e))
  }

  /** The execution, if it is still in the table, has what it had. */
  predicate Keeps(p: Process, p': Process, e: ExecutionId) {
    Has(p, e) && Has(p', e) ==> CarriedBy(p', e) == CarriedBy(p, e)
  }

  lemma SameRecordsCarry(p: Process, p': Process, e: ExecutionId)
    requires EntriesOk(p) && SameRecords(p, p')
    ensures Keeps(p, p', e)
  {
    if Has(p, e) { assert SameCall(p.calls[p.table[e]], p'.calls[p.table[e]]); }
  }

  lemma HandleRecordEntries(p: Process, c: nat)
    requires EntriesOk(p) && CanHandle(p, c)
    ensures EntriesOk(HandleRecord(p, c))
  {
    var p1 := HandleRecord(p, c);
    forall f | f in p1.table ensures EntryOk(p1, f, p1.table[f]) { assert EntryOk(p, f, p.table[f]); }
  }

  lemma ForgetCarries(p: Process, f: ExecutionId, e: ExecutionId)
    ensures Keeps(p, Forget(p, f), e) && (Has(Forget(p, f), e) ==> Has(p, e))
  {
  }

  lemma RunCarries(p: Process, c: nat, e: ExecutionId)
    requires EntriesOk(p) && CanHandle(p, c)
    ensures Keeps(p, SetRecord(p, c, RecordOf(p, c).(handled := true)), e)
  {
    if e in p.table { assert EntryOk(p, e, p.table[e]); }
  }

  lemma HandleRecordCarries(p: Process, c: nat, e: ExecutionId)
    requires EntriesOk(p) && CanHandle(p, c)
    ensures Keeps(p, HandleRecord(p, c), e)
  {
    RunCarries(p, c, e);
    ForgetCarries(SetRecord(p, c, RecordOf(p, c).(handled := true)), p.calls[c].execution, e);
  }

  lemma HandleCarries(p: Process, c: nat, e: ExecutionId)
    requires QueuesMatch(p) && EntriesOk(p) && CanHandle(p, c)
    ensures Keeps(p, Handle(p, c), e)
  {
    var p1, mode := HandleRecord(p, c), p.calls[c].mode;
    HandleRecordEntries(p, c);
    HandleRecordCarries(p, c, e);
    HandleRecordQueues(p, c);
    ReleaseKeeps(p1, mode);
    SameRecordsCarry(p1, Release(p1, mode), e);
    HandleIsRelease(p, c);
    HadBefore(p, p1, Release(p1, mode), e);
  }

  lemma HadBefore(p: Process, p1: Process, p2: Process, e: ExecutionId)
    requires Keeps(p, p1, e) && Keeps(p1, p2, e) && SameRecords(p1, p2)
    ensures Keeps(p, p2, e)
  {
    if Has(p2, e) && p2.table[e] < |p1.calls| { assert SameCall(p1.calls[p1.table[e]], p2.calls[p2.table[e]]); }
  }

  lemma PassCarries(p: Process, regularMode: bool, cancelAll: bool, e: ExecutionId)
    requires EntriesOk(p)
    ensures Keeps(p, ShutdownPass(p, regularMode, cancelAll), e)
  {
    var p' := ShutdownPass(p, regularMode, cancelAll);
    if Has(p, e) && Has(p', e) && regularMode && cancelAll {
      assert p'.calls[p.table[e]] == CancelledCall(p.(enabled := false), p.table[e]);
    }
  }

  lemma UpdateCarries(p: Process, f: ExecutionId, r: Record, e: ExecutionId)
    requires EntriesOk(p) && Allowed(p, Update(f, r)) && Leaves(p, Update(f, r), e)
    ensures Keeps(p, UpdateCurrent(p, f, r), e)
  {
    if e in p.table { assert EntryOk(p, e, p.table[e]) && EntryOk(p, f, p.table[f]); }
  }

  lemma StopCarries(p: Process, f: ExecutionId, e: ExecutionId)
    requires EntriesOk(p)
    ensures Keeps(p, Stop(p, f), e)
  {
    if Current(p, f).Some? && Current(p, f).value.status != Waiting {
      var r := Current(p, f).value;
      UpdateCarries(p, f, r.(promise := Settle(r.promise, Rejected)), e);
    }
  }

  /** The move neither attaches a response promise to the execution nor sets its response mode. */
  predicate Leaves(p: Process, m: Move, e: ExecutionId) {
    && (m.ModeById? ==> m.e != e)
    && (m.Update? && m.e == e && Has(p, e) ==> m.r.responsePromise == Current(p, e).value.responsePromise)
  }

  lemma MoveCarries(p: Process, m: Move, e: ExecutionId)
    requires QueuesMatch(p) && EntriesOk(p) && Allowed(p, m) && Leaves(p, m, e)
    ensures Keeps(p, Do(p, m), e)
  {
    if e in p.table { assert EntryOk(p, e, p.table[e]); }
    match m {
      case BeginCall(f, mode, resume) =>
        BeginKeeps(p, f, mode, resume);
        SameRecordsCarry(p, Do(p, m), e);
      case ThrowCall(c) =>
        ThrowKeeps(p, c);
        SameRecordsCarry(p, Do(p, m), e);
      case HandleCall(c) => HandleCarries(p, c, e);
      case Update(f, r) => UpdateCarries(p, f, r, e);
      case StopById(f) => StopCarries(p, f, e);
      case RemoveById(f, mode) =>
        RemoveQueuedKeeps(p, f, mode);
        SameRecordsCarry(p, Do(p, m), e);
      case Pass(regularMode, cancelAll) => PassCarries(p, regularMode, cancelAll, e);
      case _ =>
    }
  }

  /**
   * Throughout the run the execution is in the table of the process, and the process neither attaches a response promise
   * to it nor sets its response mode.
   */
  predicate Stays(s: System, ls: seq<Label>, p: nat, e: ExecutionId)
    requires CanRun(s, ls)
    decreases |ls|
  {
    && p < |s.procs| && Has(s.procs[p], e)
    && (ls == [] ||
        (&& !((ls[0].Attach? || ls[0].ChangeResponseMode?) && ls[0].p == p && ls[0].e == e)
         && Stays(Apply(s, ls[0]), ls[1..], p, e)))
  }

  lemma StepCarries(s: System, l: Label, p: nat, e: ExecutionId)
    requires AllQueuesMatch(s) && Enabled(s, l) && p < |s.procs| && EntriesOk(s.procs[p])
    requires !((l.Attach? || l.ChangeResponseMode?) && l.p == p && l.e == e)
    ensures p < |Apply(s, l).procs| && EntriesOk(Apply(s, l).procs[p]) && Keeps(s.procs[p], Apply(s, l).procs[p], e)
  {
    StepFollows(s, l, p);
    EntriesStay(s.procs[p], Apply(s, l).procs[p]);
    if ProcessOf(l) != Some(p) {
      OthersUntouched(s, l, p);
    } else {
      StepIsMove(s, l);
      MoveCarries(s.procs[p], MoveOf(s, l), e);
    }
  }

  /**
   * Along any number of wait and resume cycles, as long as the execution stays in the table, every later record has the
   * start time and response promise of the first, and the response mode is still the one set for the execution.
   */
  lemma {:induction false} CarriedAcrossResumes(s: System, ls: seq<Label>, p: nat, e: ExecutionId)
    requires AllQueuesMatch(s) && CanRun(s, ls) && p < |s.procs| && EntriesOk(s.procs[p]) && Stays(s, ls, p, e)
    ensures p < |Run(s, ls).procs| && Has(Run(s, ls).procs[p], e)
    ensures CarriedBy(Run(s, ls).procs[p], e) == CarriedBy(s.procs[p], e)
    decreases |ls|
  {
    if ls != [] {
      StepQueues(s, ls[0]);
      StepCarries(s, ls[0], p, e);
      CarriedAcrossResumes(Apply(s, ls[0]), ls[1..], p, e);
    }
  }

  /** A response promise or mode set for an execution in the table is what every later record has, until set again. */
  lemma SetValuesAreCarried(s: System, l: Label, ls: seq<Label>)
    requires AllQueuesMatch(s) && Enabled(s, l) && (l.Attach? || l.ChangeResponseMode?)
    requires EntriesOk(s.procs[l.p]) && Has(s.procs[l.p], l.e)
    requires CanRun(Apply(s, l), ls) && Stays(Apply(s, l), ls, l.p, l.e)
    ensures
      var s' := Run(Apply(s, l), ls);
      && l.p < |s'.procs| && Has(s'.procs[l.p], l.e)
      && var before, after := CarriedBy(s.procs[l.p], l.e), CarriedBy(s'.procs[l.p], l.e);
      match l
      case Attach(_, _, promise) => after == before.(responsePromise := Some(promise))
      case ChangeResponseMode(_, _, mode) => after == before.(responseMode := Some(mode))
  {
    StepQueues(s, l);
    StepFollows(s, l, l.p);
    EntriesStay(s.procs[l.p], Apply(s, l).procs[l.p]);
    CarriedAcrossResumes(Apply(s, l), ls, l.p, l.e);
  }
}
