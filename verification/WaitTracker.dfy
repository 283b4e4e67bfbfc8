/** The timers that resume waiting executions (packages/cli/src/wait-tracker.ts). */
module WaitTracker {
  import opened Common

  type ExecutionId = string

  datatype TimerState = Armed | Cleared | Fired

  /** A `setTimeout` that starts the execution. */
  datatype Timer = Timer(execution: ExecutionId, delay: int, state: TimerState)

  /** A row that the query for waiting executions has found. */
  datatype Found = Found(id: ExecutionId, waitTill: int)

  /** `waiting` maps an execution to its timer, an index into all the timers ever made. */
  datatype Tracker = Tracker(polling: bool, waiting: map<ExecutionId, nat>, timers: seq<Timer>)

  /** `clearTimeout`: nothing happens to a timer that has fired. */
  function ClearedTimer(t: Timer): Timer {
    if t.state == Armed then t.(state := Cleared) else t
  }

  /** A timer is made unless the execution has an entry, whatever has become of that entry's timer. */
  function Track(t: Tracker, found: Found, now: int): Tracker {
    if found.id in t.waiting then t
    else
      t.(waiting := t.waiting[found.id := |t.timers|],
         timers := t.timers + [Timer(found.id, found.waitTill - now, Armed)])
  }

  function Polled(t: Tracker, found: seq<Found>, now: int): Tracker {
    if found == [] then t else Track(Polled(t, found[..|found| - 1], now), found[|found| - 1], now)
  }

  predicate Owned(t: Tracker, i: nat) {
    exists e :: e in t.waiting && t.waiting[e] == i
  }

  /** The timer of an entry is cleared and the entry goes. */
  function Stopped(t: Tracker, e: ExecutionId): Tracker {
    if e in t.waiting && t.waiting[e] < |t.timers| then
      t.(waiting := t.waiting - {e}, timers := t.timers[t.waiting[e] := ClearedTimer(t.timers[t.waiting[e]])])
    else t
  }

  /** The entry goes and its timer is left alone. */
  function Started(t: Tracker, e: ExecutionId): Tracker {
    t.(waiting := t.waiting - {e})
  }

  function FiredTimer(t: Tracker, i: nat): Tracker
    requires i < |t.timers|
  {
    Started(t.(timers := t.timers[i := t.timers[i].(state := Fired)]), t.timers[i].execution)
  }

  /** The timers of all entries are cleared and the entries stay. */
  function SteppedDown(t: Tracker): Tracker {
    if !t.polling then t
    else
      t.(timers := seq(|t.timers|, i requires 0 <= i < |t.timers| =>
                         if Owned(t, i) then ClearedTimer(t.timers[i]) else t.timers[i]))
  }

  class WaitTracker {
    var polling: bool
    var waitingExecutions: map<ExecutionId, nat>
    var timers: seq<Timer>

    ghost function View(): Tracker
      reads this
    {
      Tracker(polling, waitingExecutions, timers)
    }

    /** Each entry's timer exists. */
    ghost predicate Valid()
      reads this
    {
      forall e :: e in waitingExecutions ==> waitingExecutions[e] < |timers|
    }

    constructor ()
      ensures Valid() && View() == Tracker(false, map[], [])
    {
      polling, waitingExecutions, timers := false, map[], [];
    }

    method GetWaitingExecutions(found: seq<Found>, now: int)
      requires Valid()
      modifies this
      ensures Valid() && View() == Polled(old(View()), found, now)
    {
      var i := 0;
      while i < |found|
        invariant 0 <= i <= |found| && Valid()
        invariant View() == Polled(old(View()), found[..i], now)
      {
        var executionId := found[i].id;
        if executionId !in waitingExecutions {
          waitingExecutions := waitingExecutions[executionId := |timers|];
          timers := timers + [Timer(executionId, found[i].waitTill - now, Armed)];
        }
        assert found[..i + 1][..i] == found[..i];
        i := i + 1;
      }
      assert found[..i] == found;
    }

    /** On taking over leadership. */
    method StartTracking(found: seq<Found>, now: int)
      requires Valid()
      modifies this
      ensures Valid() && View() == Polled(old(View()).(polling := true), found, now)
    {
      polling := true;
      GetWaitingExecutions(found, now);
    }

    method StopExecution(e: ExecutionId)
      requires Valid()
      modifies this
      ensures Valid() && View() == Stopped(old(View()), e)
    {
      if e !in waitingExecutions { return; }
      var i := waitingExecutions[e];
      timers := timers[i := ClearedTimer(timers[i])];
      waitingExecutions := waitingExecutions - {e};
    }

    /** `startExecution` before its first await. */
    method StartExecution(e: ExecutionId)
      requires Valid()
      modifies this
      ensures Valid() && View() == Started(old(View()), e)
    {
      waitingExecutions := waitingExecutions - {e};
    }

    method Fire(i: nat)
      requires Valid() && i < |timers| && timers[i].state == Armed
      modifies this
      ensures Valid() && View() == FiredTimer(old(View()), i)
    {
      timers := timers[i := timers[i].(state := Fired)];
      StartExecution(timers[i].execution);
    }

    /** On stepping down from leadership. */
    method StopTracking()
      requires Valid()
      modifies this
      ensures Valid() && View() == SteppedDown(old(View()))
    {
      if !polling { return; }
      ghost var t := View();
      var keys := waitingExecutions.Keys;
      while keys != {}
        invariant Valid() && keys <= waitingExecutions.Keys
        invariant polling && waitingExecutions == t.waiting && |timers| == |t.timers|
        invariant forall i :: 0 <= i < |timers| ==>
          timers[i] == t.timers[i] || (Owned(t, i) && timers[i] == ClearedTimer(t.timers[i]))
        invariant forall e :: e in t.waiting && e !in keys ==> timers[t.waiting[e]] == ClearedTimer(t.timers[t.waiting[e]])
        decreases |keys|
      {
        var e :| e in keys;
        var i := waitingExecutions[e];
        assert Owned(t, i);
        timers := timers[i := ClearedTimer(timers[i])];
        keys := keys - {e};
      }
      assert timers == SteppedDown(t).timers;
    }
  }

  // ---------------------------------------------------------------------
  // Runs
  // ---------------------------------------------------------------------

  datatype Step =
    | Poll(found: seq<Found>, now: int)
    | Takeover(found: seq<Found>, now: int)
    | Stop(e: ExecutionId)
    | Start(e: ExecutionId)
    | Fire(i: nat)
    | StepDown

  predicate Enabled(t: Tracker, s: Step) {
    s.Fire? ==> s.i < |t.timers| && t.timers[s.i].state == Armed
  }

  function After(t: Tracker, s: Step): Tracker
    requires Enabled(t, s)
  {
    match s
    case Poll(found, now) => Polled(t, found, now)
    case Takeover(found, now) => Polled(t.(polling := true), found, now)
    case Stop(e) => Stopped(t, e)
    case Start(e) => Started(t, e)
    case Fire(i) => FiredTimer(t, i)
    case StepDown => SteppedDown(t)
  }

  predicate CanRun(t: Tracker, ss: seq<Step>)
    decreases |ss|
  {
    ss == [] || (Enabled(t, ss[0]) && CanRun(After(t, ss[0]), ss[1..]))
  }

  function Run(t: Tracker, ss: seq<Step>): Tracker
    requires CanRun(t, ss)
    decreases |ss|
  {
    if ss == [] then t else Run(After(t, ss[0]), ss[1..])
  }

  /** The timers that will still start the execution. */
  function ArmedFor(t: Tracker, e: ExecutionId): set<nat> {
    set i: nat | i < |t.timers| && t.timers[i].execution == e && t.timers[i].state == Armed
  }

  /** An entry's timer is the execution's own and has not fired. */
  ghost predicate Consistent(t: Tracker) {
    forall e :: e in t.waiting ==>
      t.waiting[e] < |t.timers| && t.timers[t.waiting[e]].execution == e && t.timers[t.waiting[e]].state != Fired
  }

  lemma {:induction false} PollKeeps(t: Tracker, found: seq<Found>, now: int)
    requires Consistent(t)
    ensures Consistent(Polled(t, found, now)) && |t.timers| <= |Polled(t, found, now).timers|
    decreases |found|
  {
    if found != [] { PollKeeps(t, found[..|found| - 1], now); }
  }

  lemma FireKeeps(t: Tracker, i: nat)
    requires Consistent(t) && Enabled(t, Fire(i))
    ensures Consistent(FiredTimer(t, i))
  {
    var t' := FiredTimer(t, i);
    forall e | e in t'.waiting ensures t'.timers[t'.waiting[e]] == t.timers[t.waiting[e]] {
      assert t.timers[t.waiting[e]].execution == e;
    }
  }

  lemma StepKeeps(t: Tracker, s: Step)
    requires Consistent(t) && Enabled(t, s)
    ensures Consistent(After(t, s))
  {
    match s {
      case Poll(found, now) => PollKeeps(t, found, now);
      case Takeover(found, now) => PollKeeps(t.(polling := true), found, now);
      case Fire(i) => FireKeeps(t, i);
      case _ =>
    }
  }

  /**
   * After a poll, an execution has an entry exactly when it had one or was found, and a timer has been made for it
   * exactly when it was found and had no entry: an entry with a cleared timer is as good as any other.
   */
  lemma {:induction false} PollArmsExactlyWhen(t: Tracker, found: seq<Found>, now: int, e: ExecutionId)
    requires Consistent(t)
    ensures
      var t' := Polled(t, found, now);
      var wasFound := exists k :: 0 <= k < |found| && found[k].id == e;
      && (e in t'.waiting <==> e in t.waiting || wasFound)
      && (e in t.waiting ==> t'.waiting[e] == t.waiting[e] && ArmedFor(t', e) == ArmedFor(t, e))
      && (e !in t.waiting && wasFound ==>
            t'.waiting[e] >= |t.timers| && ArmedFor(t', e) == ArmedFor(t, e) + {t'.waiting[e]})
      && (e !in t.waiting && !wasFound ==> ArmedFor(t', e) == ArmedFor(t, e))
    decreases |found|
  {
    if found != [] {
      var front, last := found[..|found| - 1], found[|found| - 1];
      var t1, t' := Polled(t, front, now), Polled(t, found, now);
      PollArmsExactlyWhen(t, front, now, e);
      PollKeeps(t, front, now);
      assert forall k :: 0 <= k < |front| ==> found[k] == front[k];
      if last.id == e && e !in t1.waiting {
        assert ArmedFor(t', e) == ArmedFor(t1, e) + {|t1.timers|};
      } else {
        assert ArmedFor(t', e) == ArmedFor(t1, e);
      }
      if last.id == e { assert found[|found| - 1].id == e; }
    }
  }

  /** The execution has an entry, and no timer will start it. */
  predicate Silent(t: Tracker, e: ExecutionId) {
    e in t.waiting && ArmedFor(t, e) == {}
  }

  lemma StepKeepsSilent(t: Tracker, s: Step, e: ExecutionId)
    requires Consistent(t) && Silent(t, e) && Enabled(t, s) && s != Start(e) && s != Stop(e)
    ensures Silent(After(t, s), e)
  {
    var t' := After(t, s);
    match s {
      case Poll(found, now) => PollArmsExactlyWhen(t, found, now, e);
      case Takeover(found, now) =>
        assert ArmedFor(t.(polling := true), e) == ArmedFor(t, e);
        PollArmsExactlyWhen(t.(polling := true), found, now, e);
      case Fire(i) =>
        assert i !in ArmedFor(t, e);
        assert ArmedFor(t', e) <= ArmedFor(t, e);
      case _ => assert ArmedFor(t', e) <= ArmedFor(t, e);
    }
  }

  /**
   * An entry whose timer has been cleared is never armed again, through any number of polls and takeovers, until the
   * execution is stopped or started by other means.
   */
  lemma {:induction false} SilentEntriesStaySilent(t: Tracker, ss: seq<Step>, e: ExecutionId)
    requires Consistent(t) && CanRun(t, ss) && Silent(t, e) && Start(e) !in ss && Stop(e) !in ss
    ensures Silent(Run(t, ss), e)
    decreases |ss|
  {
    if ss != [] {
      assert ss[0] in ss;
      StepKeeps(t, ss[0]);
      StepKeepsSilent(t, ss[0], e);
      SilentEntriesStaySilent(After(t, ss[0]), ss[1..], e);
    }
  }

  /**
   * Stepping down silences an entry exactly when its own timer is the only one that was to start the execution; by the
   * previous lemma, taking over again does not bring it back.
   */
  lemma StepDownSilencesExactlyWhen(t: Tracker, e: ExecutionId)
    requires Consistent(t) && t.polling && e in t.waiting
    ensures Silent(SteppedDown(t), e) <==> ArmedFor(t, e) <= {t.waiting[e]}
  {
    var t' := SteppedDown(t);
    assert Owned(t, t.waiting[e]);
    forall i | i in ArmedFor(t, e) && i != t.waiting[e] ensures i in ArmedFor(t', e) {
      assert t.timers[i].execution == e && !Owned(t, i);
    }
    assert ArmedFor(t', e) <= ArmedFor(t, e) - {t.waiting[e]};
  }

  /** Stopping an execution keeps it from being started by a timer exactly when its entry's timer is the only one armed. */
  lemma StopSilencesExactlyWhen(t: Tracker, e: ExecutionId)
    requires Consistent(t) && e in t.waiting
    ensures ArmedFor(Stopped(t, e), e) == {} <==> ArmedFor(t, e) <= {t.waiting[e]}
  {
    assert ArmedFor(Stopped(t, e), e) == ArmedFor(t, e) - {t.waiting[e]};
  }

  /**
   * A start by other means leaves the timer of the entry armed, and the next poll that finds the execution arms a second
   * one: two timers will try to resume it, so that only the conditional update keeps one of them out.
   */
  lemma DirectStartLeavesTwoTimers(t: Tracker, e: ExecutionId, waitTill: int, now: int)
    requires Consistent(t) && e in t.waiting && t.timers[t.waiting[e]].state == Armed
    ensures
      var t' := Polled(Started(t, e), [Found(e, waitTill)], now);
      && e in t'.waiting && t'.waiting[e] != t.waiting[e]
      && {t.waiting[e], t'.waiting[e]} <= ArmedFor(t', e)
  {
    var found := [Found(e, waitTill)];
    assert found[..0] == [] && Polled(Started(t, e), found, now) == Track(Polled(Started(t, e), [], now), found[0], now);
  }

  // ---------------------------------------------------------------------
  // When a timer fires, and that it fires once
  // ---------------------------------------------------------------------

  /** The timer that a poll makes for an execution runs until the time to wait of the first row found for it. */
  lemma {:induction false} PollSetsTheDelay(t: Tracker, found: seq<Found>, now: int, k: nat)
    requires Consistent(t) && k < |found| && found[k].id !in t.waiting
    requires forall j :: 0 <= j < k ==> found[j].id != found[k].id
    ensures
      var t', e := Polled(t, found, now), found[k].id;
      && e in t'.waiting && t'.waiting[e] < |t'.timers|
      && t'.timers[t'.waiting[e]] == Timer(e, found[k].waitTill - now, Armed)
    decreases |found|
  {
    var front := found[..|found| - 1];
    var t1 := Polled(t, front, now);
    PollKeeps(t, front, now);
    if k < |front| {
      PollSetsTheDelay(t, front, now, k);
    } else {
      PollArmsExactlyWhen(t, front, now, found[k].id);
      assert forall j :: 0 <= j < |front| ==> front[j] == found[j];
      assert found[k].id !in t1.waiting;
    }
  }

  /** No step arms a timer that exists, changes what it is for, or removes it. */
  lemma {:induction false} TimersStay(t: Tracker, found: seq<Found>, now: int)
    ensures t.timers <= Polled(t, found, now).timers
    decreases |found|
  {
    if found != [] { TimersStay(t, found[..|found| - 1], now); }
  }

  lemma StepKeepsUnarmed(t: Tracker, s: Step, i: nat)
    requires Enabled(t, s) && i < |t.timers| && t.timers[i].state != Armed
    ensures i < |After(t, s).timers| && After(t, s).timers[i].state != Armed
  {
    match s {
      case Poll(found, now) => TimersStay(t, found, now);
      case Takeover(found, now) => TimersStay(t.(polling := true), found, now);
      case _ =>
    }
  }

  function CountFires(ss: seq<Step>, i: nat): nat
    decreases |ss|
  {
    if ss == [] then 0 else (if ss[0] == Fire(i) then 1 else 0) + CountFires(ss[1..], i)
  }

  lemma {:induction false} UnarmedNeverFires(t: Tracker, ss: seq<Step>, i: nat)
    requires CanRun(t, ss) && i < |t.timers| && t.timers[i].state != Armed
    ensures CountFires(ss, i) == 0
    decreases |ss|
  {
    if ss != [] {
      StepKeepsUnarmed(t, ss[0], i);
      UnarmedNeverFires(After(t, ss[0]), ss[1..], i);
    }
  }

  /** In every run a timer starts its execution at most once, and never after it has been cleared. */
  lemma {:induction false} TimersFireOnce(t: Tracker, ss: seq<Step>, i: nat)
    requires CanRun(t, ss)
    ensures CountFires(ss, i) <= 1
    decreases |ss|
  {
    if ss != [] {
      if ss[0] == Fire(i) {
        UnarmedNeverFires(After(t, ss[0]), ss[1..], i);
      } else {
        TimersFireOnce(After(t, ss[0]), ss[1..], i);
      }
    }
  }

  /** Firing, stopping and starting remove the execution's entry; stepping down does nothing before the first takeover. */
  lemma StepsOfTheTracker(t: Tracker, e: ExecutionId, i: nat, found: seq<Found>, now: int)
    requires i < |t.timers| && t.timers[i].state == Armed
    ensures After(t, Fire(i)).waiting == t.waiting - {t.timers[i].execution}
    ensures Consistent(t) ==> After(t, Stop(e)).waiting == t.waiting - {e}
    ensures After(t, Start(e)) == Tracker(t.polling, t.waiting - {e}, t.timers)
    ensures !t.polling ==> After(t, StepDown) == t
    ensures Polled(t, found, now).polling == t.polling && After(t, Takeover(found, now)).polling
  {
    PollingStays(t, found, now);
    PollingStays(t.(polling := true), found, now);
  }

  lemma {:induction false} PollingStays(t: Tracker, found: seq<Found>, now: int)
    ensures Polled(t, found, now).polling == t.polling
    decreases |found|
  {
    if found != [] { PollingStays(t, found[..|found| - 1], now); }
  }
}
