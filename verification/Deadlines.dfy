/**
 * Timeout arithmetic: the root execution (packages/cli/src/workflow-runner.ts), nested sub-workflows
 * (packages/cli/src/workflow-execute-additional-data.ts). Times are milliseconds, settings are seconds.
 */
module Deadlines {
  import opened Common

  const MAX_SAFE_INTEGER: int := 9007199254740991

  function Min(a: int, b: int): int {
    if a <= b then a else b
  }

  function Max(a: int, b: int): int {
    if a >= b then a else b
  }

  // ---------------------------------------------------------------------
  // Root execution
  // ---------------------------------------------------------------------

  /** The workflow's own setting, or the default, capped when positive. */
  function EffectiveTimeout(setting: Option<int>, byDefault: int, cap: int): int {
    var t := if setting.Some? then setting.value else byDefault;
    if t > 0 then Min(t, cap) else t
  }

  /** The soft deadline handed to the engine. */
  function RootDeadline(now: int, timeout: int): Option<int> {
    if timeout <= 0 then None else Some(now + timeout * 1000)
  }

  /** How long the timer that stops the execution runs; zero stops it at once. */
  function HardTimeout(now: int, startedAt: Option<int>, timeout: int, cap: int): int {
    var whole := Min(timeout, cap) * 1000;
    if startedAt.Some? then Max(whole - (now - startedAt.value), 0) else whole
  }

  /** The time from the start to the soft deadline, in milliseconds: the workflow's limit, or without one the default. */
  lemma SoftDeadlineInSeconds(now: int, seconds: int, byDefault: int, cap: int)
    ensures RootDeadline(now, EffectiveTimeout(Some(seconds), byDefault, cap))
         == if seconds <= 0 || cap <= 0 then None else Some(now + 1000 * if seconds <= cap then seconds else cap)
    ensures RootDeadline(now, EffectiveTimeout(None, seconds, cap))
         == if seconds <= 0 || cap <= 0 then None else Some(now + 1000 * if seconds <= cap then seconds else cap)
  {
  }

  // ---------------------------------------------------------------------
  // The hard stop over resumes
  // ---------------------------------------------------------------------

  /**
   * A start or resume: when, and whether its caller passes the time of the first start. The wait tracker does; a webhook, a
   * form and a chat message do not.
   */
  datatype Resume = Resume(now: int, passesStart: bool)

  /** When the timer that this resume sets stops the execution. */
  function StopAt(first: int, r: Resume, timeout: int, cap: int): int {
    r.now + HardTimeout(r.now, if r.passesStart then Some(first) else None, timeout, cap)
  }

  /** Where a limit that counts from the first start puts the stop of an execution resumed at `now`. */
  function PromisedStop(first: int, now: int, timeout: int): int {
    Max(now, first + timeout * 1000)
  }

  /**
   * The timer is never set later than the soft deadline nor earlier than the limit counted from the first start, and counts
   * the whole limit again exactly when the resume does not pass the first start.
   */
  lemma StopStaysExactlyWhen(first: int, r: Resume, setting: Option<int>, byDefault: int, cap: int)
    requires EffectiveTimeout(setting, byDefault, cap) > 0 && first <= r.now
    ensures
      var timeout := EffectiveTimeout(setting, byDefault, cap);
      var stop := StopAt(first, r, timeout, cap);
      && RootDeadline(r.now, timeout).Some?
      && PromisedStop(first, r.now, timeout) <= stop <= RootDeadline(r.now, timeout).value
      && (stop == PromisedStop(first, r.now, timeout) <==> r.passesStart || r.now == first)
      && (stop == RootDeadline(r.now, timeout).value <==> !r.passesStart || r.now == first)
  {
    var timeout := EffectiveTimeout(setting, byDefault, cap);
    assert Min(timeout, cap) == timeout;
  }

  /** Over any resumes: every stop is where the limit from the first start puts it exactly when each passes, or is at, it. */
  lemma HardStopStaysExactlyWhen(first: int, rs: seq<Resume>, setting: Option<int>, byDefault: int, cap: int)
    requires EffectiveTimeout(setting, byDefault, cap) > 0
    requires forall i :: 0 <= i < |rs| ==> first <= rs[i].now
    ensures
      var timeout := EffectiveTimeout(setting, byDefault, cap);
      (forall i :: 0 <= i < |rs| ==> StopAt(first, rs[i], timeout, cap) == PromisedStop(first, rs[i].now, timeout))
      <==> forall i :: 0 <= i < |rs| ==> rs[i].passesStart || rs[i].now == first
  {
    forall i | 0 <= i < |rs|
      ensures
        var timeout := EffectiveTimeout(setting, byDefault, cap);
        StopAt(first, rs[i], timeout, cap) == PromisedStop(first, rs[i].now, timeout)
        <==> rs[i].passesStart || rs[i].now == first
    {
      StopStaysExactlyWhen(first, rs[i], setting, byDefault, cap);
    }
  }

  /** The stop in force after the first start and these resumes. */
  function StopAfter(first: int, rs: seq<Resume>, timeout: int, cap: int): int {
    StopAt(first, if rs == [] then Resume(first, false) else rs[|rs| - 1], timeout, cap)
  }

  /** Each resume comes no later than the stop in force. */
  predicate Timely(first: int, rs: seq<Resume>, timeout: int, cap: int)
    decreases |rs|
  {
    rs == [] ||
    var before := rs[..|rs| - 1];
    Timely(first, before, timeout, cap) && first <= rs[|rs| - 1].now <= StopAfter(first, before, timeout, cap)
  }

  /** The resumes that count the limit anew. */
  function Restarts(rs: seq<Resume>): nat
    decreases |rs|
  {
    if rs == [] then 0 else Restarts(rs[..|rs| - 1]) + if rs[|rs| - 1].passesStart then 0 else 1
  }

  /** Each resume that does not pass the first start puts the stop off by at most the limit; without one it does not move. */
  lemma {:induction false} RestartsPutOffTheStop(first: int, rs: seq<Resume>, timeout: int, cap: int)
    requires 0 < timeout <= cap && Timely(first, rs, timeout, cap)
    ensures first + timeout * 1000 <= StopAfter(first, rs, timeout, cap) <= first + timeout * 1000 * (1 + Restarts(rs))
    decreases |rs|
  {
    if rs != [] {
      var before, last := rs[..|rs| - 1], rs[|rs| - 1];
      RestartsPutOffTheStop(first, before, timeout, cap);
      StopStaysExactlyWhen(first, last, Some(timeout), timeout, cap);
      OneMoreLimit(timeout * 1000, 1 + Restarts(before));
    }
  }

  lemma OneMoreLimit(limit: int, n: nat)
    ensures limit * (n + 1) == limit * n + limit
  {
  }

  /** That bound is reached: resumed at each stop by a caller that passes no start, the execution is stopped later without end. */
  lemma {:induction false} RestartsReachTheBound(first: int, n: nat, timeout: int, cap: int) returns (rs: seq<Resume>)
    requires 0 < timeout <= cap
    ensures Timely(first, rs, timeout, cap) && Restarts(rs) == n
    ensures StopAfter(first, rs, timeout, cap) == first + timeout * 1000 * (1 + n)
    decreases n
  {
    if n == 0 {
      rs := [];
    } else {
      var before := RestartsReachTheBound(first, n - 1, timeout, cap);
      var last := Resume(first + timeout * 1000 * n, false);
      rs := before + [last];
      assert rs[..|rs| - 1] == before;
      assert timeout * 1000 * n >= 0;
    }
  }

  /** A limit of 100 s, resumed after 60 s: without the first start the stop comes 160 s after it, with it after 100 s. */
  lemma ResumeWithoutStartMovesTheStop(first: int, cap: int)
    requires cap >= 100
    ensures
      var timeout := EffectiveTimeout(Some(100), 0, cap);
      && StopAt(first, Resume(first + 60000, false), timeout, cap) == first + 160000
      && StopAt(first, Resume(first + 60000, true), timeout, cap) == first + 100000
  {
  }

  // ---------------------------------------------------------------------
  // Sub-workflows
  // ---------------------------------------------------------------------

  /** One level of nesting: when the sub-workflow started, and its own setting. */
  datatype Level = Level(start: int, timeout: Option<int>)

  predicate Limited(l: Level) {
    l.timeout.Some? && l.timeout.value > 0
  }

  function OwnDeadline(l: Level): int
    requires Limited(l)
  {
    l.start + l.timeout.value * 1000
  }

  /** A parent deadline of zero is falsy, so it counts as no deadline here. */
  function SubworkflowDeadline(parent: Option<int>, l: Level): Option<int> {
    if Limited(l) then
      var inherited := if parent.Some? && parent.value != 0 then parent.value else MAX_SAFE_INTEGER;
      Some(Min(inherited, OwnDeadline(l)))
    else parent
  }

  /** The deadline given to the innermost of the nested sub-workflows, outermost level first. */
  function NestedDeadline(root: Option<int>, levels: seq<Level>): Option<int> {
    if levels == [] then root
    else SubworkflowDeadline(NestedDeadline(root, levels[..|levels| - 1]), levels[|levels| - 1])
  }

  /** A sub-workflow's deadline is no later than its parent's exactly when the falsy zero does not drop the parent's. */
  lemma NotLaterThanParentExactlyWhen(parent: int, l: Level)
    ensures SubworkflowDeadline(Some(parent), l).Some?
    ensures SubworkflowDeadline(Some(parent), l).value <= parent
       <==> !(parent == 0 && Limited(l) && OwnDeadline(l) > 0)
  {
  }

  /** A sub-workflow that sets no limit, or one that is not positive, has its parent's deadline; any other at most its own. */
  lemma SubworkflowDeadlineInSeconds(parent: Option<int>, start: int, seconds: int)
    ensures SubworkflowDeadline(parent, Level(start, None)) == parent
    ensures seconds <= 0 ==> SubworkflowDeadline(parent, Level(start, Some(seconds))) == parent
    ensures seconds > 0 ==>
      SubworkflowDeadline(parent, Level(start, Some(seconds)))
        == var own := start + 1000 * seconds;
           var bound := if parent.None? || parent.value == 0 then 9007199254740991 else parent.value;
           Some(if bound <= own then bound else own)
  {
  }

  /** `d` is one of the deadlines in force. */
  predicate InForce(root: Option<int>, levels: seq<Level>, d: int) {
    root == Some(d) || exists i :: 0 <= i < |levels| && Limited(levels[i]) && OwnDeadline(levels[i]) == d
  }

  /** Every deadline in force is no earlier than `d`. */
  ghost predicate LowerBound(root: Option<int>, levels: seq<Level>, d: int) {
    forall x :: InForce(root, levels, x) ==> d <= x
  }

  /** All times are later than the epoch and exact as numbers. */
  predicate RealTimes(root: Option<int>, levels: seq<Level>) {
    && (root.Some? ==> 0 < root.value <= MAX_SAFE_INTEGER)
    && forall i :: 0 <= i < |levels| ==>
         levels[i].start >= 0 && (Limited(levels[i]) ==> OwnDeadline(levels[i]) <= MAX_SAFE_INTEGER)
  }

  /** At every depth the deadline is the minimum of the root deadline and each enclosing start plus timeout. */
  lemma {:induction false} NestedDeadlineIsMinimum(root: Option<int>, levels: seq<Level>)
    requires RealTimes(root, levels)
    ensures
      var d := NestedDeadline(root, levels);
      && (d.Some? <==> exists x :: InForce(root, levels, x))
      && (d.Some? ==> d.value > 0 && InForce(root, levels, d.value) && LowerBound(root, levels, d.value))
    decreases |levels|
  {
    var d := NestedDeadline(root, levels);
    if levels == [] {
      if root.Some? { assert InForce(root, levels, root.value); }
    } else {
      var last := |levels| - 1;
      var outer := levels[..last];
      NestedDeadlineIsMinimum(root, outer);
      forall x ensures InForce(root, levels, x)
        <==> InForce(root, outer, x) || (Limited(levels[last]) && OwnDeadline(levels[last]) == x)
      {
        if i :| 0 <= i < last && Limited(levels[i]) && OwnDeadline(levels[i]) == x {
          assert outer[i] == levels[i];
        }
      }
      forall i | 0 <= i < last ensures levels[i] == outer[i] {}
      if d.Some? { assert InForce(root, levels, d.value); }
    }
  }

  /**
   * However deep the nesting, no sub-workflow gets a deadline after the one its runner set; when the root execution has no
   * limit, a deadline exists exactly when some level is limited.
   */
  lemma NestingNeverOutlivesTheRunner(now: int, timeout: int, levels: seq<Level>)
    requires now >= 0 && now + timeout * 1000 <= MAX_SAFE_INTEGER && RealTimes(None, levels)
    ensures
      var d := NestedDeadline(RootDeadline(now, timeout), levels);
      && (timeout > 0 ==> d.Some? && 0 < d.value <= now + timeout * 1000)
      && (timeout <= 0 ==> (d.Some? <==> exists i :: 0 <= i < |levels| && Limited(levels[i])))
  {
    var root := RootDeadline(now, timeout);
    var d := NestedDeadline(root, levels);
    assert RealTimes(root, levels);
    NestedDeadlineIsMinimum(root, levels);
    if timeout > 0 {
      assert InForce(root, levels, now + timeout * 1000);
    } else {
      if i :| 0 <= i < |levels| && Limited(levels[i]) { assert InForce(root, levels, OwnDeadline(levels[i])); }
    }
  }
}
