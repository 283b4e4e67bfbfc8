/**
 * When a stop is final: a user's stop (packages/cli/src/executions/execution.service.ts:633-651) cancels the engine of the
 * current record and writes 'canceled' to the row, and an engine that still runs may save over it
 * (packages/cli/src/execution-lifecycle/shared/shared-hook-functions.ts:107).
 */
module StopFinality {
  import opened Common
  import opened ExecutionTable
  import opened TableInvariants
  import opened ResumeProtocol
  import opened QuietSteps
  import opened CallHistories
  import opened SingleEngine
  import opened FailingRuns

  // ---------------------------------------------------------------------
  // Cancelled engines
  // ---------------------------------------------------------------------

  /** The system, and the engines that have been cancelled. A cancelled engine never saves that it waits. */
  datatype State = State(system: System, cancelled: set<Ref>)

  /** A stop cancels the engine of the current record when it was started and the record is not marked waiting. */
  predicate Cancels(s: System, l: Label, r: Ref) {
    && IsRecord(s, r.process, r.call) && EngineOf(s, r) != Idle
    && InTable(s.procs[r.process], r.call) && RecordAt(s, r.process, r.call).status != Waiting
    && match l
       case StopExecution(p, e) => p == r.process && e == CallAt(s, r.process, r.call).execution
       case Shutdown(p, regularMode, cancelAll) => p == r.process && regularMode && cancelAll
       case _ => false
  }

  predicate CanStep(t: State, l: Label) {
    Enabled(t.system, l) && !(l.Save? && l.status == Waiting && Ref(l.p, l.c) in t.cancelled)
  }

  function Step(t: State, l: Label): State
    requires CanStep(t, l)
  {
    State(Apply(t.system, l), t.cancelled + set r | r in t.system.engines && Cancels(t.system, l, r))
  }

  predicate CanContinue(t: State, ls: seq<Label>)
    decreases |ls|
  {
    ls == [] || (CanStep(t, ls[0]) && CanContinue(Step(t, ls[0]), ls[1..]))
  }

  function Continue(t: State, ls: seq<Label>): State
    requires CanContinue(t, ls)
    decreases |ls|
  {
    if ls == [] then t else Continue(Step(t, ls[0]), ls[1..])
  }

  /** Each such run is one of the protocol, so all that holds in every run of it holds here. */
  lemma {:induction false} ContinuationIsRun(t: State, ls: seq<Label>)
    requires CanContinue(t, ls)
    ensures CanRun(t.system, ls) && Run(t.system, ls) == Continue(t, ls).system
    decreases |ls|
  {
    if ls != [] { ContinuationIsRun(Step(t, ls[0]), ls[1..]); }
  }

  // ---------------------------------------------------------------------
  // Nothing claims the execution but cancelled engines
  // ---------------------------------------------------------------------

  /** The holder's call is about to run the execution, or its engine has not saved. */
  predicate HolderClaims(s: System, e: ExecutionId)
    requires e in s.holder && HolderOk(s, e)
  {
    Claims(CallAt(s, s.holder[e].process, s.holder[e].call), EngineOf(s, s.holder[e]))
  }

  ghost predicate Final(t: State, e: ExecutionId)
    requires Core(t.system)
  {
    && e in t.system.db && !IsWaiting(t.system, e)
    && HolderOk(t.system, e) && (HolderClaims(t.system, e) ==> t.system.holder[e] in t.cancelled)
  }

  lemma EnginesOnlyAge(s: System, l: Label, r: Ref)
    requires Enabled(s, l)
    ensures IsLive(EngineOf(Apply(s, l), r)) ==> IsLive(EngineOf(s, r))
    ensures ProcessOf(l) != Some(r.process) ==> EngineOf(Apply(s, l), r) == EngineOf(s, r)
  {
  }

  lemma HolderStays(s: System, l: Label, e: ExecutionId)
    requires Enabled(s, l) && e in s.db && e in s.holder && !IsWaiting(s, e)
    ensures e in Apply(s, l).db && e in Apply(s, l).holder && Apply(s, l).holder[e] == s.holder[e]
  {
  }

  /** The step makes a call claim its execution that did not. */
  predicate NewClaim(s: System, l: Label, p: nat, c: nat)
    requires Enabled(s, l) && IsCall(s, p, c) && IsCall(Apply(s, l), p, c)
  {
    && Claims(CallAt(Apply(s, l), p, c), EngineOf(Apply(s, l), Ref(p, c)))
    && !Claims(CallAt(s, p, c), EngineOf(s, Ref(p, c)))
  }

  lemma QuietCallAfter(s: System, l: Label, p: nat, c: nat)
    requires AllQueuesMatch(s) && Enabled(s, l) && IsCall(s, p, c) && IsQuietStep(s, l)
    ensures IsCall(Apply(s, l), p, c)
    ensures QuietCall(CallAt(s, p, c), CallAt(Apply(s, l), p, c))
  {
    if ProcessOf(l) != Some(p) {
      OthersUntouched(s, l, p);
    } else {
      StepIsMove(s, l);
      MoveCallsQuiet(s.procs[p], MoveOf(s, l));
    }
  }

  lemma QuietCallClaims(a: Call, b: Call, x: Engine, y: Engine)
    requires QuietCall(a, b) && Claims(b, y) && (IsLive(y) ==> IsLive(x))
    ensures Claims(a, x)
  {
  }

  /** A step on which nobody wins, installs or creates makes no claim. */
  lemma QuietClaims(s: System, l: Label, p: nat, c: nat)
    requires AllQueuesMatch(s) && Enabled(s, l) && IsCall(s, p, c) && IsQuietStep(s, l)
    ensures IsCall(Apply(s, l), p, c) && !NewClaim(s, l, p, c)
  {
    QuietCallAfter(s, l, p, c);
    EnginesOnlyAge(s, l, Ref(p, c));
    var s' := Apply(s, l);
    if Claims(CallAt(s', p, c), EngineOf(s', Ref(p, c))) {
      QuietCallClaims(CallAt(s, p, c), CallAt(s', p, c), EngineOf(s, Ref(p, c)), EngineOf(s', Ref(p, c)));
    }
  }

  /** Nor does one on which somebody wins or installs, for a call of an execution whose row does not wait. */
  lemma LoudClaims(s: System, l: Label, p: nat, c: nat)
    requires Enabled(s, l) && IsCall(s, p, c) && !IsQuietStep(s, l) && !IsWaiting(s, CallAt(s, p, c).execution)
    ensures IsCall(Apply(s, l), p, c) && !NewClaim(s, l, p, c)
  {
    EnginesOnlyAge(s, l, Ref(p, c));
  }

  /** While the row does not wait, no step makes a claim for a call that had none. */
  lemma ClaimsOnlyEnd(s: System, l: Label, e: ExecutionId)
    requires Core(s) && Enabled(s, l) && e in s.db && HolderOk(s, e) && !IsWaiting(s, e)
    ensures
      var s' := Apply(s, l);
      && e in s'.db && e in s'.holder && s'.holder[e] == s.holder[e] && HolderOk(s', e)
      && (HolderClaims(s', e) ==> HolderClaims(s, e))
  {
    var h := s.holder[e];
    HolderStays(s, l, e);
    StepKeepsCore(s, l);
    assert HolderOk(Apply(s, l), e);
    if IsQuietStep(s, l) { QuietClaims(s, l, h.process, h.call); } else { LoudClaims(s, l, h.process, h.call); }
  }

  /** Only the holder's live engine makes a row wait. */
  lemma EntersByClaim(s: System, l: Label, e: ExecutionId)
    requires Core(s) && Enabled(s, l) && Enters(s, l, e)
    ensures e in s.holder && HolderOk(s, e) && HolderClaims(s, e) && s.holder[e] == Ref(l.p, l.c)
  {
    SaverHolds(s, l.p, l.c, l.status);
  }

  lemma StepKeepsFinal(t: State, l: Label, e: ExecutionId)
    requires Core(t.system) && Final(t, e) && CanStep(t, l)
    ensures Core(Step(t, l).system) && Final(Step(t, l), e)
  {
    StepKeepsCore(t.system, l);
    ClaimsOnlyEnd(t.system, l, e);
    if Enters(t.system, l, e) { EntersByClaim(t.system, l, e); }
    WaitsStep(t.system, l, e);
  }

  lemma {:induction false} FinalStaysFinal(t: State, ls: seq<Label>, e: ExecutionId)
    requires Core(t.system) && Final(t, e) && CanContinue(t, ls)
    ensures Core(Continue(t, ls).system) && Final(Continue(t, ls), e)
    decreases |ls|
  {
    if ls != [] {
      StepKeepsFinal(t, ls[0], e);
      FinalStaysFinal(Step(t, ls[0]), ls[1..], e);
    }
  }

  // ---------------------------------------------------------------------
  // A claim that is not cancelled can still end in waiting
  // ---------------------------------------------------------------------

  /** The holder's call claims the execution, is not queued, and its engine is not cancelled. */
  ghost predicate Escapes(t: State, e: ExecutionId)
    requires Core(t.system)
  {
    && e in t.system.db && HolderOk(t.system, e) && HolderClaims(t.system, e)
    && !CallAt(t.system, t.system.holder[e].process, t.system.holder[e].call).phase.Queued?
    && t.system.holder[e] !in t.cancelled
  }

  /** The holder's next step on the way to a saved 'waiting'. */
  function NextStep(s: System, r: Ref): Label
    requires IsCall(s, r.process, r.call)
  {
    var (p, c) := (r.process, r.call);
    if CallAt(s, p, c).phase.Reserved? then SetRunning(p, c)
    else if CallAt(s, p, c).phase.Won? then InstallRecord(p, c, 0)
    else if EngineOf(s, r) == Idle then StartEngine(p, c)
    else if EngineOf(s, r) == Executing then MarkWaiting(p, c)
    else Save(p, c, Waiting)
  }

  function StepsLeft(s: System, r: Ref): nat
    requires IsCall(s, r.process, r.call)
  {
    var phase := CallAt(s, r.process, r.call).phase;
    if phase.Reserved? then 5 else if phase.Won? then 4
    else match EngineOf(s, r) case Idle => 3 case Executing => 2 case _ => 1
  }

  lemma NextStepIsEnabled(t: State, e: ExecutionId)
    requires Core(t.system) && Escapes(t, e)
    ensures CanStep(t, NextStep(t.system, t.system.holder[e]))
  {
    var r := t.system.holder[e];
    assert CallHeld(t.system, r.process, r.call);
  }

  predicate GetsCloser(t: State, e: ExecutionId, t': State)
    requires e in t.system.holder && HolderOk(t.system, e)
  {
    var s, s', r := t.system, t'.system, t.system.holder[e];
    && e in s'.db && e in s'.holder && s'.holder[e] == r && IsCall(s', r.process, r.call)
    && CallAt(s', r.process, r.call).execution == e
    && Claims(CallAt(s', r.process, r.call), EngineOf(s', r)) && !CallAt(s', r.process, r.call).phase.Queued?
    && r !in t'.cancelled && StepsLeft(s', r) < StepsLeft(s, r)
  }

  lemma TowardsTheEngine(t: State, e: ExecutionId)
    requires Core(t.system) && Escapes(t, e)
    requires
      var phase := CallAt(t.system, t.system.holder[e].process, t.system.holder[e].call).phase;
      phase.Reserved? || phase.Won?
    ensures
      var l := NextStep(t.system, t.system.holder[e]);
      !l.Save? && CanStep(t, l) && GetsCloser(t, e, Step(t, l))
  {
    NextStepIsEnabled(t, e);
    var r := t.system.holder[e];
    assert CallHeld(t.system, r.process, r.call);
  }

  lemma TowardsTheSave(t: State, e: ExecutionId)
    requires Core(t.system) && Escapes(t, e)
    requires CallAt(t.system, t.system.holder[e].process, t.system.holder[e].call).phase.Installed?
    ensures
      var l := NextStep(t.system, t.system.holder[e]);
      CanStep(t, l) && if l.Save? then IsWaiting(Step(t, l).system, e) else GetsCloser(t, e, Step(t, l))
  {
    NextStepIsEnabled(t, e);
  }

  lemma NextStepEscapes(t: State, e: ExecutionId)
    requires Core(t.system) && Escapes(t, e)
    ensures
      var l := NextStep(t.system, t.system.holder[e]);
      && CanStep(t, l) && Core(Step(t, l).system)
      && if l.Save? then IsWaiting(Step(t, l).system, e) else Escapes(Step(t, l), e) && GetsCloser(t, e, Step(t, l))
  {
    var r := t.system.holder[e];
    NextStepIsEnabled(t, e);
    StepKeepsCore(t.system, NextStep(t.system, r));
    if CallAt(t.system, r.process, r.call).phase.Installed? { TowardsTheSave(t, e); } else { TowardsTheEngine(t, e); }
  }

  lemma {:induction false} CanStillWait(t: State, e: ExecutionId) returns (ls: seq<Label>)
    requires Core(t.system) && Escapes(t, e)
    ensures CanContinue(t, ls) && IsWaiting(Continue(t, ls).system, e)
    decreases StepsLeft(t.system, t.system.holder[e])
  {
    var l := NextStep(t.system, t.system.holder[e]);
    NextStepEscapes(t, e);
    if l.Save? {
      ls := [l];
    } else {
      var more := CanStillWait(Step(t, l), e);
      ls := [l] + more;
      assert ls[1..] == more;
    }
  }

  // ---------------------------------------------------------------------
  // A stop
  // ---------------------------------------------------------------------

  /** A user's stop on process `p`: the record by id, then the row. */
  function Stopped(t: State, p: nat, e: ExecutionId): State
    requires p < |t.system.procs| && e in t.system.db
  {
    Step(Step(t, StopExecution(p, e)), CancelRow(e))
  }

  /**
   * The holder's call claims the execution when it is stopped, and the stop does not cancel its engine: the engine is not
   * started, its record is marked waiting, or the record is not the process's current one.
   */
  ghost predicate Missed(t: State, p: nat, e: ExecutionId)
    requires Core(t.system)
  {
    && e in t.system.db && HolderOk(t.system, e) && HolderClaims(t.system, e)
    && t.system.holder[e] !in t.cancelled && !Cancels(t.system, StopExecution(p, e), t.system.holder[e])
  }

  lemma StopKeepsPhase(proc: Process, e: ExecutionId, c: nat)
    requires c < |proc.calls|
    ensures
      var a, b := proc.calls[c], (if c < |Stop(proc, e).calls| then Stop(proc, e).calls[c] else proc.calls[c]);
      && |Stop(proc, e).calls| == |proc.calls| && a.resume == b.resume && a.execution == b.execution
      && a.phase.Installed? == b.phase.Installed? && (!a.phase.Installed? ==> a.phase == b.phase)
  {
  }

  /** The row is not waiting afterwards, and what the holder claims is as before. */
  lemma StopParts(t: State, p: nat, e: ExecutionId)
    requires Core(t.system) && p < |t.system.procs| && e in t.system.db
    ensures
      var s, s' := t.system, Stopped(t, p, e).system;
      && Core(s') && e in s'.db && !IsWaiting(s', e) && s'.holder == s.holder && HolderOk(s, e) && HolderOk(s', e)
      && (HolderClaims(s', e) <==> HolderClaims(s, e))
      && CallAt(s', s.holder[e].process, s.holder[e].call).phase.Queued?
         == CallAt(s, s.holder[e].process, s.holder[e].call).phase.Queued?
      && (s.holder[e] in Stopped(t, p, e).cancelled
          <==> s.holder[e] in t.cancelled || Cancels(s, StopExecution(p, e), s.holder[e]))
  {
    var s, l := t.system, StopExecution(p, e);
    var s1, h := Apply(s, l), s.holder[e];
    StepKeepsCore(s, l);
    StepKeepsCore(s1, CancelRow(e));
    assert HolderOk(s, e) && HolderOk(s1, e) && HolderOk(Apply(s1, CancelRow(e)), e);
    if h.process == p { StopKeepsPhase(s.procs[p], e, h.call); }
  }

  /** Some continuation leaves the row waiting. */
  ghost predicate CanWait(t: State, e: ExecutionId) {
    exists ls :: CanContinue(t, ls) && IsWaiting(Continue(t, ls).system, e)
  }

  /**
   * After a stop of an execution that is not queued, its row can be waiting again, so that it can be resumed, exactly when
   * the stop missed its engine.
   */
  lemma StopIsFinalExactlyWhen(t: State, p: nat, e: ExecutionId)
    requires Core(t.system) && p < |t.system.procs| && e in t.system.db && HolderOk(t.system, e)
    requires !CallAt(t.system, t.system.holder[e].process, t.system.holder[e].call).phase.Queued?
    ensures CanWait(Stopped(t, p, e), e) <==> Missed(t, p, e)
  {
    var t' := Stopped(t, p, e);
    StopParts(t, p, e);
    if Missed(t, p, e) {
      var ls := CanStillWait(t', e);
    } else {
      forall ls | CanContinue(t', ls) ensures !IsWaiting(Continue(t', ls).system, e) {
        FinalStaysFinal(t', ls, e);
      }
    }
  }

  /**
   * From the start, after any run: a stop on the process whose current record has a started engine that is not marked
   * waiting is final, whatever happens next.
   */
  lemma StopOfRunningEngineIsFinal(s: System, ls: seq<Label>, p: nat, c: nat, more: seq<Label>)
    requires Init(s) && CanContinue(State(s, {}), ls)
    requires
      var t := Continue(State(s, {}), ls);
      && IsRecord(t.system, p, c) && EngineOf(t.system, Ref(p, c)) == Executing
      && InTable(t.system.procs[p], c) && RecordAt(t.system, p, c).status != Waiting
      && CallAt(t.system, p, c).execution in t.system.db
      && CanContinue(Stopped(t, p, CallAt(t.system, p, c).execution), more)
    ensures
      var t := Continue(State(s, {}), ls);
      var e := CallAt(t.system, p, c).execution;
      !IsWaiting(Continue(Stopped(t, p, e), more).system, e)
  {
    var t := Continue(State(s, {}), ls);
    var e := CallAt(t.system, p, c).execution;
    ReachedIsCore(s, ls);
    assert CallHeld(t.system, p, c) && Holds(t.system, e, Ref(p, c));
    StopIsFinalExactlyWhen(t, p, e);
  }

  lemma ShutdownMakesFinal(t: State, p: nat, c: nat)
    requires Core(t.system) && IsRecord(t.system, p, c) && EngineOf(t.system, Ref(p, c)) == Executing
    requires InTable(t.system.procs[p], c) && RecordAt(t.system, p, c).status != Waiting
    ensures
      var t' := Step(t, Shutdown(p, true, true));
      Core(t'.system) && Final(t', CallAt(t.system, p, c).execution)
  {
    var s, e, l := t.system, CallAt(t.system, p, c).execution, Shutdown(p, true, true);
    assert CallHeld(s, p, c) && HolderOk(s, e) && RowHeld(s, e);
    assert Cancels(s, l, Ref(p, c));
    StepKeepsCore(s, l);
    ClaimsOnlyEnd(s, l, e);
    WaitsStep(s, l, e);
  }

  lemma AfterShutdownNeverWaits(t: State, p: nat, c: nat, more: seq<Label>)
    requires Core(t.system) && IsRecord(t.system, p, c) && EngineOf(t.system, Ref(p, c)) == Executing
    requires InTable(t.system.procs[p], c) && RecordAt(t.system, p, c).status != Waiting
    requires CanContinue(Step(t, Shutdown(p, true, true)), more)
    ensures !IsWaiting(Continue(Step(t, Shutdown(p, true, true)), more).system, CallAt(t.system, p, c).execution)
  {
    ShutdownMakesFinal(t, p, c);
    FinalStaysFinal(Step(t, Shutdown(p, true, true)), more, CallAt(t.system, p, c).execution);
  }

  lemma ReachedIsCore(s: System, ls: seq<Label>)
    requires Init(s) && CanContinue(State(s, {}), ls)
    ensures Core(Continue(State(s, {}), ls).system)
  {
    InitCore(s);
    ContinuationIsRun(State(s, {}), ls);
    RunKeepsCore(s, ls);
  }

  /** So is a cancelling shutdown of that process, for every such execution. */
  lemma ShutdownOfRunningEngineIsFinal(s: System, ls: seq<Label>, p: nat, c: nat, more: seq<Label>)
    requires Init(s) && CanContinue(State(s, {}), ls)
    requires
      var t := Continue(State(s, {}), ls);
      && IsRecord(t.system, p, c) && EngineOf(t.system, Ref(p, c)) == Executing
      && InTable(t.system.procs[p], c) && RecordAt(t.system, p, c).status != Waiting
      && CanContinue(Step(t, Shutdown(p, true, true)), more)
    ensures
      var t := Continue(State(s, {}), ls);
      !IsWaiting(Continue(Step(t, Shutdown(p, true, true)), more).system, CallAt(t.system, p, c).execution)
  {
    ReachedIsCore(s, ls);
    AfterShutdownNeverWaits(Continue(State(s, {}), ls), p, c, more);
  }

  /** A stop between installing the record and starting its engine is not final: the engine starts all the same. */
  lemma StopBeforeTheStartIsMissed(e: ExecutionId)
    ensures
      var t := State(Stage(e, 3), {});
      && e in t.system.db && |t.system.procs| == 1 && CanWait(Stopped(t, 0, e), e)
  {
    var s0, t := Stage(e, 0), State(Stage(e, 3), {});
    InitCore(s0);
    ScriptRuns(e, 0, 3);
    RunKeepsCore(s0, Script(e, 0, 3));
    StopIsFinalExactlyWhen(t, 0, e);
  }

  lemma NothingCancelled(s: System, l: Label)
    requires Enabled(s, l) && forall r :: r in s.engines ==> !Cancels(s, l, r)
    ensures CanStep(State(s, {}), l) && Step(State(s, {}), l) == State(Apply(s, l), {})
  {
  }

  lemma ContinuePrepend(t: State, l: Label, ls: seq<Label>)
    requires CanStep(t, l) && CanContinue(Step(t, l), ls)
    ensures CanContinue(t, [l] + ls) && Continue(t, [l] + ls) == Continue(Step(t, l), ls)
  {
    assert ([l] + ls)[1..] == ls;
  }

  predicate IsStop(l: Label) {
    l.StopExecution? || l.Shutdown?
  }

  lemma {:induction false} PlainRunContinues(s: System, ls: seq<Label>)
    requires CanRun(s, ls) && forall l :: l in ls ==> !IsStop(l)
    ensures CanContinue(State(s, {}), ls) && Continue(State(s, {}), ls) == State(Run(s, ls), {})
    decreases |ls|
  {
    if ls != [] {
      assert ls[0] in ls && forall l :: l in ls[1..] ==> l in ls;
      NothingCancelled(s, ls[0]);
      PlainRunContinues(Apply(s, ls[0]), ls[1..]);
    }
  }

  lemma {:induction false} ScriptIsPlain(e: ExecutionId, k: nat, n: nat)
    requires k <= n <= LAST
    ensures forall l :: l in Script(e, k, n) ==> !IsStop(l)
    decreases n - k
  {
    if k < n { ScriptIsPlain(e, k + 1, n); }
  }

  /** The state after the engine has marked the execution and the user has stopped it: the record is gone. */
  function AfterMissedStop(e: ExecutionId): System {
    var first := Ref(0, 0);
    Alone(map[e := Canceled], map[e := first], map[first := Marked],
          [FirstCall(e, Installed(Record(0, None, Waiting, Pending, false)))], map[], map[e := 0])
  }

  lemma MarkedStopCancelsNothing(e: ExecutionId)
    ensures
      var t := State(Stage(e, 5), {});
      && CanContinue(t, [StopExecution(0, e), CancelRow(e)])
      && Continue(t, [StopExecution(0, e), CancelRow(e)]) == State(AfterMissedStop(e), {})
  {
    var s, l, m := Stage(e, 5), StopExecution(0, e), CancelRow(e);
    NothingCancelled(s, l);
    NothingCancelled(Apply(s, l), m);
    SameSystem(Apply(Apply(s, l), m), AfterMissedStop(e));
    ContinuePrepend(State(Apply(s, l), {}), m, []);
    ContinuePrepend(State(s, {}), l, [m]);
    assert [l] + [m] == [l, m] && [m] + [] == [m];
  }

  /** The engine's save, and a caller that resumes. */
  lemma MissedEngineSaves(e: ExecutionId)
    ensures
      var t, ls := State(AfterMissedStop(e), {}), [Save(0, 0, Waiting), BeginResume(0, e, Manual), ConditionalUpdate(0, 1)];
      && CanContinue(t, ls) && IsWaiting(Step(t, ls[0]).system, e)
      && var s := Continue(t, ls).system;
      && IsCall(s, 0, 1) && CallAt(s, 0, 1) == Call(e, Manual, true, Won)
  {
    var s0, l0, l1, l2 := AfterMissedStop(e), Save(0, 0, Waiting), BeginResume(0, e, Manual), ConditionalUpdate(0, 1);
    NothingCancelled(s0, l0);
    var s1 := Apply(s0, l0);
    NothingCancelled(s1, l1);
    var s2 := Apply(s1, l1);
    assert CallAt(s2, 0, 1) == Call(e, Manual, true, Reserved);
    NothingCancelled(s2, l2);
    ContinuePrepend(State(s2, {}), l2, []);
    ContinuePrepend(State(s1, {}), l1, [l2]);
    ContinuePrepend(State(s0, {}), l0, [l1, l2]);
    assert [l2] + [] == [l2] && [l1] + [l2] == [l1, l2] && [l0] + [l1, l2] == [l0, l1, l2];
  }

  /**
   * From the start, a run in which an execution is stopped after its engine has marked it as waiting and before it saves: the
   * engine is not cancelled, its save makes the row wait, and a caller wins the resume of the stopped execution.
   */
  lemma StoppedExecutionIsResumed(e: ExecutionId)
    ensures
      var t0, ls, stop := State(Stage(e, 0), {}), Script(e, 0, 5), [StopExecution(0, e), CancelRow(e)];
      var more := [Save(0, 0, Waiting), BeginResume(0, e, Manual), ConditionalUpdate(0, 1)];
      && Init(t0.system) && CanContinue(t0, ls) && CanContinue(Continue(t0, ls), stop)
      && var t := Continue(Continue(t0, ls), stop);
      && Lookup(t.system.db, e) == Some(Canceled) && CanContinue(t, more) && IsWaiting(Step(t, more[0]).system, e)
      && var s := Continue(t, more).system;
      && IsCall(s, 0, 1) && CallAt(s, 0, 1) == Call(e, Manual, true, Won)
  {
    ScriptRuns(e, 0, 5);
    ScriptIsPlain(e, 0, 5);
    PlainRunContinues(Stage(e, 0), Script(e, 0, 5));
    MarkedStopCancelsNothing(e);
    MissedEngineSaves(e);
  }
}
