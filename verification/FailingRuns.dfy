/**
 * Runs from the start in which a promise is never settled: a stop between marking the execution as waiting and finalizing
 * (packages/cli/src/active-executions.ts:212-216), an error that only looks like a cancellation
 * (packages/cli/src/workflow-runner.ts:107-113), and a resume that installs its record before the first engine completes
 * (packages/cli/src/workflow-runner.ts:455-464).
 */
module FailingRuns {
  import opened Common
  import opened ExecutionTable
  import opened TableInvariants
  import opened ResumeProtocol
  import opened SingleEngine
  import opened ResumeSafety
  import opened ExecutionOutcomes

  const LAST: nat := 11

  /** One process without concurrency limits, and one execution. */
  function Alone(db: map<ExecutionId, Status>, holder: map<ExecutionId, Ref>, engines: map<Ref, Engine>,
                 calls: seq<Call>, table: map<ExecutionId, nat>, latest: map<ExecutionId, nat>): System
  {
    System(db, holder, engines, [Process(false, map[], map[], calls, table, map[], latest)])
  }

  function FirstCall(e: ExecutionId, phase: Phase): Call {
    Call(e, Manual, false, phase)
  }

  function Pair(e: ExecutionId, second: Phase): seq<Call> {
    [FirstCall(e, Installed(Record(0, None, Waiting, Pending, false))), Call(e, Manual, true, second)]
  }

  /** The steps: run, wait, save; resume and install; only then does the first engine complete. */
  function StepAt(e: ExecutionId, k: nat): Label
    requires k < LAST
  {
    [CreateExecution(0, e, Manual), SetRunning(0, 0), InstallRecord(0, 0, 0), StartEngine(0, 0), MarkWaiting(0, 0),
     Save(0, 0, Waiting), BeginResume(0, e, Manual), ConditionalUpdate(0, 1), InstallRecord(0, 1, 9),
     EndEngine(0, 0, Completed), RunHandler(0, 1)][k]
  }

  /** The state before each step. */
  function Stage(e: ExecutionId, k: nat): System
    requires k <= LAST
  {
    var first, second, own := Ref(0, 0), Ref(0, 1), map[e := 0];
    match k
    case 0 => Alone(map[], map[], map[], [], map[], map[])
    case 1 => Alone(map[e := New], map[e := first], map[], [FirstCall(e, Reserved)], map[], map[])
    case 2 => Alone(map[e := Running], map[e := first], map[], [FirstCall(e, Won)], map[], map[])
    case 3 => Alone(map[e := Running], map[e := first], map[],
                    [FirstCall(e, Installed(Record(0, None, Running, Pending, false)))], own, own)
    case 4 => Alone(map[e := Running], map[e := first], map[first := Executing],
                    [FirstCall(e, Installed(Record(0, None, Running, Pending, false)))], own, own)
    case 5 => Alone(map[e := Running], map[e := first], map[first := Marked],
                    [FirstCall(e, Installed(Record(0, None, Waiting, Pending, false)))], own, own)
    case 6 => Alone(map[e := Waiting], map[e := first], map[first := Saved],
                    [FirstCall(e, Installed(Record(0, None, Waiting, Pending, false)))], own, own)
    case 7 => Alone(map[e := Waiting], map[e := first], map[first := Saved], Pair(e, Reserved), own, own)
    case 8 => Alone(map[e := Running], map[e := second], map[first := Saved], Pair(e, Won), own, own)
    case 9 => Alone(map[e := Running], map[e := second], map[first := Saved],
                    Pair(e, Installed(Record(0, None, Running, Pending, false))), map[e := 1], map[e := 1])
    case 10 => Alone(map[e := Running], map[e := second], map[first := Ended],
                     Pair(e, Installed(Record(0, None, Running, Resolved, false))), map[e := 1], map[e := 1])
    case _ => Alone(map[e := Running], map[e := second], map[first := Ended],
                    Pair(e, Installed(Record(0, None, Running, Resolved, true))), map[], map[e := 1])
  }

  lemma SameSystem(s: System, t: System)
    requires s.db == t.db && s.holder == t.holder && s.engines == t.engines && |s.procs| == 1 == |t.procs|
    requires s.procs[0].calls == t.procs[0].calls && s.procs[0].table == t.procs[0].table
    requires s.procs[0].latest == t.procs[0].latest
    requires s.procs[0].responseModes == t.procs[0].responseModes && s.procs[0].enabled == t.procs[0].enabled
    requires s.procs[0].limits == t.procs[0].limits && s.procs[0].queues == t.procs[0].queues
    ensures s == t
  {
    assert s.procs[0] == t.procs[0] && s.procs == t.procs;
  }

  lemma StageEnabled(e: ExecutionId, k: nat)
    requires k < LAST
    ensures Enabled(Stage(e, k), StepAt(e, k)) && Clean(Stage(e, k), StepAt(e, k))
  {
  }

  predicate Leads(e: ExecutionId, k: nat)
    requires k < LAST
  {
    && Enabled(Stage(e, k), StepAt(e, k)) && Clean(Stage(e, k), StepAt(e, k))
    && Apply(Stage(e, k), StepAt(e, k)) == Stage(e, k + 1)
  }

  // Split by stage, so that each lemma unfolds a few stages only.

  lemma SetUp(e: ExecutionId, k: nat)
    requires k <= 2
    ensures Leads(e, k)
  {
    StageEnabled(e, k);
    SameSystem(Apply(Stage(e, k), StepAt(e, k)), Stage(e, k + 1));
  }

  lemma RunAndWait(e: ExecutionId, k: nat)
    requires 3 <= k <= 5
    ensures Leads(e, k)
  {
    StageEnabled(e, k);
    SameSystem(Apply(Stage(e, k), StepAt(e, k)), Stage(e, k + 1));
  }

  lemma Resume(e: ExecutionId, k: nat)
    requires 6 <= k <= 8
    ensures Leads(e, k)
  {
    StageEnabled(e, k);
    SameSystem(Apply(Stage(e, k), StepAt(e, k)), Stage(e, k + 1));
  }

  lemma Complete(e: ExecutionId, k: nat)
    requires 9 <= k < LAST
    ensures Leads(e, k)
  {
    StageEnabled(e, k);
    SameSystem(Apply(Stage(e, k), StepAt(e, k)), Stage(e, k + 1));
  }

  lemma StageStep(e: ExecutionId, k: nat)
    requires k < LAST
    ensures Leads(e, k)
  {
    if k <= 2 { SetUp(e, k); } else if k <= 5 { RunAndWait(e, k); } else if k <= 8 { Resume(e, k); } else { Complete(e, k); }
  }

  /** The steps from one stage to another. */
  function Script(e: ExecutionId, k: nat, n: nat): seq<Label>
    requires k <= n <= LAST
    decreases n - k
  {
    if k == n then [] else [StepAt(e, k)] + Script(e, k + 1, n)
  }

  lemma PrependClean(s: System, l: Label, ls: seq<Label>)
    requires Enabled(s, l) && Clean(s, l) && CanRun(Apply(s, l), ls) && CleanRun(Apply(s, l), ls)
    ensures CanRun(s, [l] + ls) && CleanRun(s, [l] + ls) && Run(s, [l] + ls) == Run(Apply(s, l), ls)
  {
    Prepend(s, l, ls);
    assert ([l] + ls)[1..] == ls;
  }

  lemma {:induction false} ScriptRuns(e: ExecutionId, k: nat, n: nat)
    requires k <= n <= LAST
    ensures CanRun(Stage(e, k), Script(e, k, n)) && CleanRun(Stage(e, k), Script(e, k, n))
    ensures Run(Stage(e, k), Script(e, k, n)) == Stage(e, n)
    decreases n - k
  {
    if k < n {
      StageStep(e, k);
      ScriptRuns(e, k + 1, n);
      PrependClean(Stage(e, k), StepAt(e, k), Script(e, k + 1, n));
    }
  }

  lemma {:induction false} OneMoreStep(s: System, ls: seq<Label>, l: Label)
    requires CanRun(s, ls) && Enabled(Run(s, ls), l)
    ensures CanRun(s, ls + [l]) && Run(s, ls + [l]) == Apply(Run(s, ls), l)
    decreases |ls|
  {
    if ls == [] {
      assert ls + [l] == [l] && [l][1..] == [];
    } else {
      assert (ls + [l])[0] == ls[0] && (ls + [l])[1..] == ls[1..] + [l];
      OneMoreStep(Apply(s, ls[0]), ls[1..], l);
    }
  }

  lemma ScriptThen(e: ExecutionId, k: nat, n: nat, l: Label)
    requires k <= n <= LAST && Enabled(Stage(e, n), l)
    ensures
      var ls := Script(e, k, n) + [l];
      CanRun(Stage(e, k), ls) && Run(Stage(e, k), ls) == Apply(Stage(e, n), l)
  {
    ScriptRuns(e, k, n);
    OneMoreStep(Stage(e, k), Script(e, k, n), l);
  }

  lemma {:induction false} ScriptHasNoStop(e: ExecutionId, k: nat, n: nat)
    requires k <= n <= LAST
    ensures forall l :: l in Script(e, k, n) ==> !l.StopExecution?
    decreases n - k
  {
    if k < n { ScriptHasNoStop(e, k + 1, n); }
  }

  /**
   * A stop, by a user or a timeout, that comes after the engine has marked the execution as waiting and before it completes:
   * the record leaves the table with its promise pending, so it is never settled.
   */
  lemma StopWhileWaitingOrphans(e: ExecutionId)
    ensures
      var s0, ls := Stage(e, 0), Script(e, 0, 5) + [StopExecution(0, e)];
      && Init(s0) && CanRun(s0, ls)
      && var s := Run(s0, ls);
      && |s.procs| == 1 && Orphan(s.procs[0], 0) && EngineOf(s, Ref(0, 0)) == Marked
  {
    ScriptThen(e, 0, 5, StopExecution(0, e));
  }

  lemma CancelLikeErrorAtStage(e: ExecutionId)
    ensures
      var l := EndEngine(0, 0, Threw(true));
      && Enabled(Stage(e, 4), l)
      && var s := Apply(Stage(e, 4), l);
      && |s.procs| == 1 && EngineOf(s, Ref(0, 0)) == Ended
      && InTable(s.procs[0], 0) && RecordAt(s, 0, 0).promise.Pending? && !CanHandle(s.procs[0], 0)
  {
  }

  /**
   * Starting the engine throws, or the engine's promise rejects, with a message that contains "cancelled", and nobody has
   * stopped the execution: the engine has ended, and the record stays in the table with its promise pending and no handler
   * to run. An error of a node is not such a case: the engine catches it and its promise resolves.
   */
  lemma CancelLikeErrorLeavesPending(e: ExecutionId)
    ensures
      var s0, ls := Stage(e, 0), Script(e, 0, 4) + [EndEngine(0, 0, Threw(true))];
      && Init(s0) && CanRun(s0, ls) && (forall l :: l in ls ==> !l.StopExecution?)
      && var s := Run(s0, ls);
      && |s.procs| == 1 && EngineOf(s, Ref(0, 0)) == Ended
      && InTable(s.procs[0], 0) && RecordAt(s, 0, 0).promise.Pending? && !CanHandle(s.procs[0], 0)
  {
    CancelLikeErrorAtStage(e);
    ScriptThen(e, 0, 4, EndEngine(0, 0, Threw(true)));
    ScriptHasNoStop(e, 0, 4);
  }

  /**
   * From the start, without stops and without shutdown, a run in which a completed engine never settles its own record:
   * the record that the resume installed is settled instead, and its handler removes the execution although the
   * resumed engine is still to run.
   */
  lemma LateCompletionSettlesTheNewRecord(e: ExecutionId)
    ensures
      var s0, ls := Stage(e, 0), Script(e, 0, LAST);
      && Init(s0) && CanRun(s0, ls) && CleanRun(s0, ls)
      && var s := Run(s0, ls);
      && |s.procs| == 1
      && EngineOf(s, Ref(0, 0)) == Ended && Orphan(s.procs[0], 0)
      && EngineOf(s, Ref(0, 1)) == Idle && IsInstalled(s.procs[0], 1) && e !in s.procs[0].table
  {
    ScriptRuns(e, 0, LAST);
    var proc := Stage(e, LAST).procs[0];
    assert IsInstalled(proc, 0) && proc.table == map[];
  }
}
