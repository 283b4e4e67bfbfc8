/**
 * Children of a waiting parent handing over their output: read the parent, write its data without any condition, read it
 * again, and try to resume it with a conditional update that tests the status only (packages/cli/src/workflow-helpers.ts:369-401,
 * packages/cli/src/wait-tracker.ts:97-168, packages/cli/src/active-executions.ts:98-121). Children, timers and other callers
 * interleave in every way.
 */
module ChildResults {
  import opened Common

  type Value(==)
  type Node(==)

  /** An entry of the node execution stack; the data of the first one is the input of the node that runs next. */
  datatype Item = Item(node: Node, data: Value)
  type Stack = seq<Item>

  datatype RowStatus = Running | Waiting | Finished | Canceled

  /**
   * Where a stack comes from: the one with which the parent entered a waiting period, its head data replaced by the output
   * of a child, if any, and its head then by the edit of a caller, if any; or one that the running parent has saved.
   */
  datatype Origin = Entry(period: nat, writer: Option<nat>, edit: Option<Item>) | Engine

  /**
   * How far a caller has got. Stacks that were read are kept with their origin; `wrote` is the period in which the caller's
   * own write landed.
   */
  datatype Progress =
    | Reporting
    | Holding(local: Stack, period: nat)
    | Ready(wrote: Option<nat>)
    | Resuming(snapshot: Stack, origin: Origin, wrote: Option<nat>)
    | Resumed(start: Stack, period: nat, origin: Origin, wrote: Option<nat>)
    | AlreadyResuming
    | Refused

  /**
   * A completed child with its output, if it has any, or somebody else who resumes the parent. A waiting webhook, a form or a
   * chat message replaces the head of the stack it has read: it disables the node and gives it what it has received.
   */
  datatype Caller = Caller(output: Option<Value>, edit: Option<Item>, progress: Progress)

  /**
   * The parent's row, and the callers. `bases` is a history: the stack with which the parent entered each waiting
   * period; `origin` is the origin of the row's stack.
   */
  datatype Parent = Parent(status: RowStatus, stack: Stack, callers: seq<Caller>, bases: seq<Stack>, origin: Origin)

  datatype Step =
    | CompleteChild(output: Option<Value>)
    | CallResume(edit: Option<Item>)
    | Read(c: nat)
    | Write(c: nat)
    | Reread(c: nat)
    | Update(c: nat)
    | Progresses(stack: Stack)
    | Wait(stack: Stack)
    | Finish
    | Cancel

  function WithHead(s: Stack, data: Value): Stack {
    if s == [] then s else [s[0].(data := data)] + s[1..]
  }

  function Edited(s: Stack, edit: Option<Item>): Stack {
    if s == [] || edit == None then s else [edit.value] + s[1..]
  }

  function EditedOrigin(origin: Origin, edit: Option<Item>): Origin {
    if origin.Entry? && edit.Some? then origin.(edit := edit) else origin
  }

  predicate At(s: Parent, c: nat) {
    c < |s.callers|
  }

  /** The parent's own steps happen only while it runs: a waiting row has no live engine. */
  predicate Enabled(s: Parent, l: Step) {
    match l
    case CompleteChild(output) => true
    case CallResume(edit) => true
    case Read(c) => At(s, c) && s.callers[c].progress.Reporting?
    case Write(c) => At(s, c) && s.callers[c].progress.Holding?
    case Reread(c) => At(s, c) && s.callers[c].progress.Ready?
    case Update(c) => At(s, c) && s.callers[c].progress.Resuming?
    case Progresses(stack) => s.status != Waiting
    case Wait(stack) => s.status != Waiting
    case Finish => s.status != Waiting
    case Cancel => true
  }

  function SetProgress(s: Parent, c: nat, progress: Progress): Parent
    requires At(s, c)
  {
    s.(callers := s.callers[c := s.callers[c].(progress := progress)])
  }

  function PeriodOf(origin: Origin): nat {
    if origin.Entry? then origin.period else 0
  }

  /** Without output data, with a parent that does not wait, or with an empty stack, nothing is written. */
  predicate HandsOver(s: Parent, output: Option<Value>) {
    output.Some? && s.status == Waiting && s.stack != []
  }

  function AfterRead(s: Parent, output: Option<Value>): Progress {
    if HandsOver(s, output) then Holding(WithHead(s.stack, output.value), PeriodOf(s.origin)) else Ready(None)
  }

  function Apply(s: Parent, l: Step): Parent
    requires Enabled(s, l)
  {
    match l
    case CompleteChild(output) => s.(callers := s.callers + [Caller(output, None, Reporting)])
    case CallResume(edit) => s.(callers := s.callers + [Caller(None, edit, Ready(None))])
    case Read(c) => SetProgress(s, c, AfterRead(s, s.callers[c].output))
    case Write(c) =>
      var own := s.callers[c].progress;
      SetProgress(s, c, Ready(Some(|s.bases|))).(stack := own.local, origin := Entry(own.period, Some(c), None))
    case Reread(c) =>
      var edit := s.callers[c].edit;
      SetProgress(s, c,
        if s.status == Finished || (edit.Some? && s.stack == []) then Refused
        else Resuming(Edited(s.stack, edit), EditedOrigin(s.origin, edit), s.callers[c].progress.wrote))
    case Update(c) =>
      var own := s.callers[c].progress;
      if s.status == Waiting then
        SetProgress(s, c, Resumed(own.snapshot, |s.bases|, own.origin, own.wrote))
          .(status := Running, stack := own.snapshot, origin := own.origin)
      else SetProgress(s, c, AlreadyResuming)
    case Progresses(stack) => s.(status := Running, stack := stack, origin := Engine)
    case Wait(stack) =>
      s.(status := Waiting, stack := stack, bases := s.bases + [stack], origin := Entry(|s.bases| + 1, None, None))
    case Finish => s.(status := Finished)
    case Cancel => s.(status := Canceled)
  }

  predicate CanRun(s: Parent, ls: seq<Step>)
    decreases |ls|
  {
    ls == [] || (Enabled(s, ls[0]) && CanRun(Apply(s, ls[0]), ls[1..]))
  }

  function Run(s: Parent, ls: seq<Step>): Parent
    requires CanRun(s, ls)
    decreases |ls|
  {
    if ls == [] then s else Run(Apply(s, ls[0]), ls[1..])
  }

  /** A parent that runs for the first time. */
  function Start(stack: Stack): Parent {
    Parent(Running, stack, [], [], Engine)
  }

  // ---------------------------------------------------------------------
  // What every run keeps
  // ---------------------------------------------------------------------

  predicate IsPeriod(s: Parent, period: nat) {
    0 < period <= |s.bases|
  }

  predicate HasOutput(s: Parent, writer: Option<nat>) {
    writer.Some? ==> At(s, writer.value) && s.callers[writer.value].output.Some?
  }

  /** The base stack, its head data replaced by the output of the writer, if any, and its head by the edit, if any. */
  function Handed(s: Parent, base: Stack, writer: Option<nat>, edit: Option<Item>): Stack
    requires HasOutput(s, writer)
  {
    Edited(if writer == None then base else WithHead(base, s.callers[writer.value].output.value), edit)
  }

  predicate ComesFrom(s: Parent, stack: Stack, origin: Origin) {
    origin.Entry? ==>
      && IsPeriod(s, origin.period) && HasOutput(s, origin.writer)
      && stack == Handed(s, s.bases[origin.period - 1], origin.writer, origin.edit)
  }

  /** The parent has waited since the period began. */
  predicate Current(s: Parent, period: nat) {
    s.status == Waiting && period == |s.bases|
  }

  predicate Written(origin: Origin) {
    origin.Entry? && origin.writer.Some?
  }

  /** Children edit nothing. */
  predicate CallerOk(s: Parent, caller: Caller) {
    (caller.output.Some? ==> caller.edit == None) &&
    match caller.progress
    case Holding(local, period) =>
      && IsPeriod(s, period) && caller.output.Some? && s.bases[period - 1] != []
      && local == WithHead(s.bases[period - 1], caller.output.value)
    case Ready(wrote) =>
      wrote.Some? ==> IsPeriod(s, wrote.value) && (Current(s, wrote.value) ==> Written(s.origin))
    case Resuming(snapshot, origin, wrote) =>
      && ComesFrom(s, snapshot, origin) && (origin.Entry? && Current(s, origin.period) ==> origin.edit == caller.edit)
      && (wrote.Some? ==> IsPeriod(s, wrote.value) && (Current(s, wrote.value) ==> Written(origin)))
    case Resumed(start, period, origin, wrote) =>
      && IsPeriod(s, period) && ComesFrom(s, start, origin) && (wrote == Some(period) ==> Written(origin))
      && (origin.Entry? && origin.period == period ==> origin.edit == caller.edit)
    case _ => true
  }

  predicate RowOk(s: Parent) {
    ComesFrom(s, s.stack, s.origin) && (s.status == Waiting ==> s.bases != [] && s.origin.Entry? && s.origin.edit == None)
  }

  predicate Inv(s: Parent) {
    RowOk(s) && forall c: nat :: c < |s.callers| ==> CallerOk(s, s.callers[c])
  }

  /** Nothing that a caller relies on is taken away. */
  predicate Extends(s: Parent, s': Parent) {
    && |s.callers| <= |s'.callers| && (forall c: nat :: c < |s.callers| ==> s'.callers[c].output == s.callers[c].output)
    && s.bases <= s'.bases
    && (forall n: nat :: Current(s', n) && n <= |s.bases| ==> Current(s, n) && (Written(s.origin) ==> Written(s'.origin)))
  }

  lemma StepExtends(s: Parent, l: Step)
    requires Enabled(s, l)
    ensures Extends(s, Apply(s, l))
  {
  }

  lemma OriginExtends(s: Parent, s': Parent, stack: Stack, origin: Origin)
    requires Extends(s, s') && ComesFrom(s, stack, origin)
    ensures ComesFrom(s', stack, origin)
  {
    if origin.Entry? { assert s'.bases[origin.period - 1] == s.bases[origin.period - 1]; }
  }

  lemma CallerExtends(s: Parent, s': Parent, caller: Caller)
    requires Extends(s, s') && CallerOk(s, caller)
    ensures CallerOk(s', caller)
  {
    match caller.progress {
      case Holding(local, period) => assert s'.bases[period - 1] == s.bases[period - 1];
      case Resuming(snapshot, origin, wrote) => OriginExtends(s, s', snapshot, origin);
      case Resumed(start, period, origin, wrote) => OriginExtends(s, s', start, origin);
      case _ =>
    }
  }

  /** Replacing the head data twice is replacing it once. */
  lemma ReadComesFromBase(s: Parent, output: Value)
    requires RowOk(s) && s.status == Waiting
    ensures IsPeriod(s, s.origin.period)
    ensures WithHead(s.stack, output) == WithHead(s.bases[s.origin.period - 1], output)
    ensures s.stack != [] <==> s.bases[s.origin.period - 1] != []
  {
  }

  /** A second edit replaces the first. */
  lemma EditComesFrom(s: Parent, stack: Stack, origin: Origin, edit: Option<Item>)
    requires ComesFrom(s, stack, origin)
    ensures ComesFrom(s, Edited(stack, edit), EditedOrigin(origin, edit))
  {
  }

  predicate Acts(l: Step, c: nat) {
    (l.Read? || l.Write? || l.Reread? || l.Update?) && l.c == c
  }

  /** The caller whose step it is. */
  lemma ActorKeeps(s: Parent, l: Step, c: nat)
    requires Inv(s) && Enabled(s, l) && c < |s.callers| && Acts(l, c)
    ensures CallerOk(Apply(s, l), Apply(s, l).callers[c])
  {
    assert CallerOk(s, s.callers[c]);
    var s' := Apply(s, l);
    StepExtends(s, l);
    match l {
      case Read(_) => if HandsOver(s, s.callers[c].output) { ReadComesFromBase(s, s.callers[c].output.value); }
      case Reread(_) =>
        OriginExtends(s, s', s.stack, s.origin);
        EditComesFrom(s', s.stack, s.origin, s.callers[c].edit);
      case Update(_) => OriginExtends(s, s', s.callers[c].progress.snapshot, s.callers[c].progress.origin);
      case _ =>
    }
  }

  lemma RowKeeps(s: Parent, l: Step)
    requires Inv(s) && Enabled(s, l)
    ensures RowOk(Apply(s, l))
  {
    StepExtends(s, l);
    OriginExtends(s, Apply(s, l), s.stack, s.origin);
    if l.Write? || l.Update? {
      assert CallerOk(s, s.callers[l.c]);
      if l.Update? { OriginExtends(s, Apply(s, l), s.callers[l.c].progress.snapshot, s.callers[l.c].progress.origin); }
    }
  }

  lemma StepKeeps(s: Parent, l: Step)
    requires Inv(s) && Enabled(s, l)
    ensures Inv(Apply(s, l))
  {
    var s' := Apply(s, l);
    RowKeeps(s, l);
    StepExtends(s, l);
    forall c: nat | c < |s'.callers| ensures CallerOk(s', s'.callers[c]) {
      if c < |s.callers| {
        if Acts(l, c) {
          ActorKeeps(s, l, c);
        } else {
          assert CallerOk(s, s.callers[c]);
          CallerExtends(s, s', s.callers[c]);
        }
      }
    }
  }

  lemma {:induction false} RunKeeps(s: Parent, ls: seq<Step>)
    requires Inv(s) && CanRun(s, ls)
    ensures Inv(Run(s, ls))
    decreases |ls|
  {
    if ls != [] {
      StepKeeps(s, ls[0]);
      RunKeeps(Apply(s, ls[0]), ls[1..]);
    }
  }

  /**
   * In every run from the start, however late its writes and updates: whoever resumes the parent starts it with the stack
   * it re-read, its head edited if the caller edits, which is either one that the running parent had saved, or the stack with
   * which the parent entered some waiting period with the output of some child, or none, as its head data. When the caller's
   * own write landed in the period it resumes, the head data is some child's output.
   */
  lemma EveryResumeStartsWithSomePeriod(stack: Stack, ls: seq<Step>, c: nat)
    requires CanRun(Start(stack), ls) && At(Run(Start(stack), ls), c) && Run(Start(stack), ls).callers[c].progress.Resumed?
    ensures
      var s' := Run(Start(stack), ls);
      var own := s'.callers[c].progress;
      && IsPeriod(s', own.period)
      && (own.origin.Entry? ==>
            && IsPeriod(s', own.origin.period) && HasOutput(s', own.origin.writer)
            && own.start == Handed(s', s'.bases[own.origin.period - 1], own.origin.writer, own.origin.edit))
      && (own.wrote == Some(own.period) ==> own.origin.Entry? && own.origin.writer.Some?)
  {
    RunKeeps(Start(stack), ls);
    assert CallerOk(Run(Start(stack), ls), Run(Start(stack), ls).callers[c]);
  }

  // ---------------------------------------------------------------------
  // Exactly when a step keeps the period's own stack
  // ---------------------------------------------------------------------

  /** The stacks differ at most in the head data. */
  predicate SameButHead(a: Stack, b: Stack) {
    |a| == |b| && (a != [] ==> a[0].node == b[0].node && a[1..] == b[1..])
  }

  /** The stacks differ at most in the first entry. */
  predicate SameRest(a: Stack, b: Stack) {
    |a| == |b| && (a != [] ==> a[1..] == b[1..])
  }

  lemma SameButHeadIsWithHead(a: Stack, b: Stack, data: Value)
    requires a != []
    ensures SameButHead(a, b) <==> WithHead(a, data) == WithHead(b, data)
  {
    if WithHead(a, data) == WithHead(b, data) {
      assert b != [] && WithHead(a, data)[0] == WithHead(b, data)[0];
      assert WithHead(a, data)[1..] == a[1..] && WithHead(b, data)[1..] == b[1..];
    }
  }

  /** The stack with which the parent entered the period it is in. */
  function Base(s: Parent): Stack
    requires s.bases != []
  {
    s.bases[|s.bases| - 1]
  }

  /**
   * A write into a waiting row leaves the period's own stack, with the child's output as its head data, exactly when the
   * stack that the child read, possibly in an earlier period, is that of the current period up to the head data.
   */
  lemma WriteKeepsOwnStackExactlyWhen(s: Parent, c: nat)
    requires Inv(s) && s.status == Waiting && Enabled(s, Write(c))
    ensures
      var period := s.callers[c].progress.period;
      && IsPeriod(s, period) && s.callers[c].output.Some?
      && (Apply(s, Write(c)).stack == WithHead(Base(s), s.callers[c].output.value) <==> SameButHead(s.bases[period - 1], Base(s)))
  {
    assert CallerOk(s, s.callers[c]);
    SameButHeadIsWithHead(s.bases[s.callers[c].progress.period - 1], Base(s), s.callers[c].output.value);
  }

  /** The stack behind an origin, before any child's output. */
  function Source(s: Parent, stack: Stack, origin: Origin): Stack
    requires ComesFrom(s, stack, origin)
  {
    if origin.Entry? then s.bases[origin.period - 1] else stack
  }

  /**
   * A conditional update that wins starts the parent with the period's own stack, up to the first entry, exactly when the
   * stack behind the caller's re-read is the period's own, up to the first entry; and without an edit, up to the head data.
   * The update does not look: it tests the status only.
   */
  lemma UpdateStartsOwnStackExactlyWhen(s: Parent, c: nat)
    requires Inv(s) && s.status == Waiting && Enabled(s, Update(c))
    ensures
      var own := s.callers[c].progress;
      && ComesFrom(s, own.snapshot, own.origin)
      && Apply(s, Update(c)).callers[c].progress == Resumed(own.snapshot, |s.bases|, own.origin, own.wrote)
      && var source := Source(s, own.snapshot, own.origin);
      && (SameRest(own.snapshot, Base(s)) <==> SameRest(source, Base(s)))
      && ((own.origin.Entry? ==> own.origin.edit == None) ==>
            (SameButHead(own.snapshot, Base(s)) <==> SameButHead(source, Base(s))))
  {
    assert CallerOk(s, s.callers[c]);
  }

  /**
   * A child with output that gets to resume the parent has had its own write land exactly when the parent waited, with a
   * stack that was not empty, at the moment the child read it.
   */
  lemma OwnWriteLandsExactlyWhen(s: Parent, c: nat, ls: seq<Step>)
    requires Enabled(s, Read(c)) && s.callers[c].output.Some? && CanRun(Apply(s, Read(c)), ls)
    requires At(Run(Apply(s, Read(c)), ls), c) && Run(Apply(s, Read(c)), ls).callers[c].progress.Resumed?
    ensures Run(Apply(s, Read(c)), ls).callers[c].progress.wrote.Some? <==> s.status == Waiting && s.stack != []
  {
    WritesAsRead(Apply(s, Read(c)), ls, c, HandsOver(s, s.callers[c].output));
  }

  /** Whether the caller, past its read, hands over. */
  predicate HandsOverAs(progress: Progress, handsOver: bool) {
    match progress
    case Reporting => false
    case Holding(local, period) => handsOver
    case Ready(wrote) => wrote.Some? == handsOver
    case Resuming(snapshot, origin, wrote) => wrote.Some? == handsOver
    case Resumed(start, period, origin, wrote) => wrote.Some? == handsOver
    case _ => true
  }

  lemma {:induction false} WritesAsRead(s: Parent, ls: seq<Step>, c: nat, handsOver: bool)
    requires CanRun(s, ls) && At(s, c) && HandsOverAs(s.callers[c].progress, handsOver)
    ensures At(Run(s, ls), c) && HandsOverAs(Run(s, ls).callers[c].progress, handsOver)
    decreases |ls|
  {
    if ls != [] { WritesAsRead(Apply(s, ls[0]), ls[1..], c, handsOver); }
  }

  // ---------------------------------------------------------------------
  // Timely runs
  // ---------------------------------------------------------------------

  /** A step on a waiting row is timely when the stack it writes comes from the period the parent is in. */
  predicate Timely(s: Parent, l: Step)
    requires Enabled(s, l)
  {
    match l
    case Write(c) => s.status == Waiting ==> s.callers[c].progress.period == |s.bases|
    case Update(c) =>
      var origin := s.callers[c].progress.origin;
      s.status == Waiting ==> origin.Entry? && origin.period == |s.bases|
    case _ => true
  }

  predicate TimelyRun(s: Parent, ls: seq<Step>)
    requires CanRun(s, ls)
    decreases |ls|
  {
    ls == [] || (Timely(s, ls[0]) && TimelyRun(Apply(s, ls[0]), ls[1..]))
  }

  /** A waiting row has a stack of its own period. */
  predicate OwnRow(s: Parent) {
    s.status == Waiting ==> s.origin.Entry? && s.origin.period == |s.bases|
  }

  /** A write keeps the row its own period's exactly when it is timely. */
  lemma OwnRowExactlyWhen(s: Parent, l: Step)
    requires Inv(s) && OwnRow(s) && Enabled(s, l)
    ensures OwnRow(Apply(s, l)) <==> !l.Write? || Timely(s, l)
  {
  }

  /** Every caller that has resumed the parent started it with a stack of the period it ended. */
  predicate OwnStarts(s: Parent) {
    forall c: nat :: c < |s.callers| && s.callers[c].progress.Resumed? ==>
      s.callers[c].progress.origin.Entry? && s.callers[c].progress.origin.period == s.callers[c].progress.period
  }

  lemma {:induction false} TimelyKeepsOwn(s: Parent, ls: seq<Step>)
    requires Inv(s) && CanRun(s, ls) && TimelyRun(s, ls) && OwnRow(s) && OwnStarts(s)
    ensures OwnRow(Run(s, ls)) && OwnStarts(Run(s, ls))
    decreases |ls|
  {
    if ls != [] {
      StepKeeps(s, ls[0]);
      OwnRowExactlyWhen(s, ls[0]);
      TimelyKeepsOwn(Apply(s, ls[0]), ls[1..]);
    }
  }

  /**
   * In every timely run from the start, over any number of waiting periods: whoever resumes the parent starts it with the
   * stack of that very period's entry, its head data replaced by the output of the last child whose write had landed before
   * the re-read, if any, and its head by the caller's own edit, if it edits.
   */
  lemma TimelyResumesStartWithTheLastWrite(stack: Stack, ls: seq<Step>, c: nat)
    requires CanRun(Start(stack), ls) && TimelyRun(Start(stack), ls)
    requires At(Run(Start(stack), ls), c) && Run(Start(stack), ls).callers[c].progress.Resumed?
    ensures
      var s' := Run(Start(stack), ls);
      var own := s'.callers[c].progress;
      && IsPeriod(s', own.period) && own.origin.Entry? && HasOutput(s', own.origin.writer)
      && own.start == Handed(s', s'.bases[own.period - 1], own.origin.writer, s'.callers[c].edit)
      && (own.wrote == Some(own.period) ==> own.origin.writer.Some?)
  {
    RunKeeps(Start(stack), ls);
    TimelyKeepsOwn(Start(stack), ls);
    assert CallerOk(Run(Start(stack), ls), Run(Start(stack), ls).callers[c]);
  }

  // ---------------------------------------------------------------------
  // One waiting period
  // ---------------------------------------------------------------------

  ghost predicate NoWait(ls: seq<Step>) {
    forall i :: 0 <= i < |ls| ==> !ls[i].Wait?
  }

  lemma NoWaitRest(ls: seq<Step>)
    requires NoWait(ls) && ls != []
    ensures !ls[0].Wait? && NoWait(ls[1..])
  {
    forall i | 0 <= i < |ls[1..]| ensures !ls[1..][i].Wait? { assert ls[1..][i] == ls[i + 1]; }
  }

  /** No caller holds anything from an earlier period that it could still write. */
  predicate NothingLeftOver(s: Parent) {
    forall c: nat :: c < |s.callers| ==>
      match s.callers[c].progress
      case Holding(local, period) => s.status == Waiting ==> period == |s.bases|
      case Resuming(snapshot, origin, wrote) => s.status == Waiting ==> origin.Entry? && origin.period == |s.bases|
      case _ => true
  }

  /** Within one period nothing is ever late. */
  lemma {:induction false} OnePeriodIsTimely(s: Parent, ls: seq<Step>)
    requires Inv(s) && CanRun(s, ls) && NoWait(ls) && OwnRow(s) && NothingLeftOver(s)
    ensures TimelyRun(s, ls)
    decreases |ls|
  {
    if ls != [] {
      NoWaitRest(ls);
      StepKeeps(s, ls[0]);
      OnePeriodIsTimely(Apply(s, ls[0]), ls[1..]);
    }
  }

  /** A child with output that completes in the period, now or later: it only resumes after its own write. */
  predicate OnTrack(s: Parent, c: nat, n: nat) {
    && |s.bases| == n
    && (At(s, c) && s.callers[c].output.Some? ==>
          match s.callers[c].progress
          case Ready(wrote) => s.status == Waiting ==> wrote == Some(n)
          case Resuming(snapshot, origin, wrote) => s.status == Waiting ==> wrote == Some(n)
          case Resumed(start, period, origin, wrote) => period == n && wrote == Some(n)
          case _ => true)
  }

  lemma StepOnTrack(s: Parent, l: Step, c: nat, n: nat)
    requires Inv(s) && Enabled(s, l) && Timely(s, l) && !l.Wait? && OwnRow(s)
    requires OnTrack(s, c, n) && n > 0 && s.bases[n - 1] != []
    ensures OnTrack(Apply(s, l), c, n) && Apply(s, l).bases == s.bases
  {
    if s.status == Waiting { assert s.stack != []; }
  }

  lemma {:induction false} RunOnTrack(s: Parent, ls: seq<Step>, c: nat, n: nat)
    requires Inv(s) && CanRun(s, ls) && TimelyRun(s, ls) && NoWait(ls) && OwnRow(s)
    requires OnTrack(s, c, n) && n > 0 && s.bases[n - 1] != []
    ensures OnTrack(Run(s, ls), c, n) && Run(s, ls).bases == s.bases
    decreases |ls|
  {
    if ls != [] {
      NoWaitRest(ls);
      StepKeeps(s, ls[0]);
      OwnRowExactlyWhen(s, ls[0]);
      StepOnTrack(s, ls[0], c, n);
      RunOnTrack(Apply(s, ls[0]), ls[1..], c, n);
    }
  }

  lemma {:induction false} StartsInOwnPeriod(s: Parent, ls: seq<Step>, c: nat)
    requires Inv(s) && CanRun(s, ls) && TimelyRun(s, ls) && OwnRow(s) && (At(s, c) ==> !s.callers[c].progress.Resumed?)
    requires At(Run(s, ls), c) && Run(s, ls).callers[c].progress.Resumed?
    ensures
      var own := Run(s, ls).callers[c].progress;
      own.origin.Entry? && own.origin.period == own.period
    decreases |ls|
  {
    if ls != [] {
      var s1 := Apply(s, ls[0]);
      StepKeeps(s, ls[0]);
      OwnRowExactlyWhen(s, ls[0]);
      if At(s1, c) && s1.callers[c].progress.Resumed? {
        StartStays(s1, ls[1..], c);
      } else {
        StartsInOwnPeriod(s1, ls[1..], c);
      }
    }
  }

  lemma {:induction false} StartStays(s: Parent, ls: seq<Step>, c: nat)
    requires CanRun(s, ls) && At(s, c) && s.callers[c].progress.Resumed?
    ensures At(Run(s, ls), c) && Run(s, ls).callers[c].progress == s.callers[c].progress
    decreases |ls|
  {
    if ls != [] { StartStays(Apply(s, ls[0]), ls[1..], c); }
  }

  /**
   * Within one waiting period, for any number of children, timers and other callers in any interleaving, with nothing left
   * over from an earlier period: if a child with output that completes while the parent waits, or later in the run, gets to
   * resume the parent, whose stack was not empty, then the parent starts with the output of some completed child as
   * its head data, and the rest of the stack unchanged.
   */
  lemma ChildResumeStartsWithAChildsOutput(s: Parent, ls: seq<Step>, c: nat) returns (k: nat)
    requires Inv(s) && CanRun(s, ls) && NoWait(ls)
    requires s.status == Waiting && OwnRow(s) && NothingLeftOver(s) && Base(s) != []
    requires At(s, c) ==> s.callers[c].progress.Reporting?
    requires At(Run(s, ls), c) && Run(s, ls).callers[c].output.Some? && Run(s, ls).callers[c].progress.Resumed?
    ensures
      var s' := Run(s, ls);
      var start := s'.callers[c].progress.start;
      && At(s', k) && s'.callers[k].output.Some?
      && |start| == |Base(s)| && start[1..] == Base(s)[1..]
      && start[0].node == Base(s)[0].node && start[0].data == s'.callers[k].output.value
  {
    OnePeriodIsTimely(s, ls);
    RunOnTrack(s, ls, c, |s.bases|);
    RunKeeps(s, ls);
    StartsInOwnPeriod(s, ls, c);
    var s' := Run(s, ls);
    assert CallerOk(s', s'.callers[c]) && s'.callers[c].edit == None;
    k := s'.callers[c].progress.origin.writer.value;
  }

  // ---------------------------------------------------------------------
  // What a read, a re-read and a write put where
  // ---------------------------------------------------------------------

  /**
   * A child that reads a waiting parent with a non-empty stack, and has output, holds that stack with its output as the
   * data of the first entry and everything else as it was; any other child goes on without writing. What it holds is what
   * its write stores.
   */
  lemma ReadReplacesTheHeadData(s: Parent, c: nat)
    requires Enabled(s, Read(c))
    ensures
      var output, progress := s.callers[c].output, Apply(s, Read(c)).callers[c].progress;
      if output.Some? && s.status == Waiting && s.stack != [] then
        && progress.Holding? && |progress.local| == |s.stack| && progress.local[1..] == s.stack[1..]
        && progress.local[0].node == s.stack[0].node && progress.local[0].data == output.value
      else progress == Ready(None)
  {
  }

  lemma WriteStoresWhatIsHeld(s: Parent, c: nat)
    requires Enabled(s, Write(c))
    ensures
      var s' := Apply(s, Write(c));
      s'.stack == s.callers[c].progress.local && s'.status == s.status && s'.callers[c].progress == Ready(Some(|s.bases|))
  {
  }

  /**
   * A re-read refuses exactly a parent that has finished, or an empty stack when the caller edits. Otherwise it takes the
   * row's stack, with the caller's entry in place of the first one if it edits.
   */
  lemma RereadTakesTheRow(s: Parent, c: nat)
    requires Enabled(s, Reread(c))
    ensures
      var edit, progress := s.callers[c].edit, Apply(s, Reread(c)).callers[c].progress;
      && (progress.Refused? <==> s.status == Finished || (edit.Some? && s.stack == []))
      && (!progress.Refused? ==>
            && progress.Resuming? && |progress.snapshot| == |s.stack|
            && (edit.None? ==> progress.snapshot == s.stack)
            && (edit.Some? ==> progress.snapshot[0] == edit.value && progress.snapshot[1..] == s.stack[1..]))
  {
  }

  /** An update that finds the parent waiting starts it with what the caller took; any other is told it is too late. */
  lemma UpdateStartsWhatWasTaken(s: Parent, c: nat)
    requires Enabled(s, Update(c))
    ensures
      var taken, s' := s.callers[c].progress.snapshot, Apply(s, Update(c));
      if s.status == Waiting then
        && s'.status == Running && s'.stack == taken
        && s'.callers[c].progress.Resumed? && s'.callers[c].progress.start == taken
      else s'.status == s.status && s'.stack == s.stack && s'.callers[c].progress == AlreadyResuming
  {
  }

  /** A parent that does not wait is resumed by nobody, however the run goes on, unless it waits again. */
  lemma {:induction false} OnlyAWaitingParentIsResumed(s: Parent, ls: seq<Step>, c: nat)
    requires CanRun(s, ls) && s.status != Waiting && NoWait(ls) && (At(s, c) ==> !s.callers[c].progress.Resumed?)
    ensures Run(s, ls).status != Waiting && (At(Run(s, ls), c) ==> !Run(s, ls).callers[c].progress.Resumed?)
    decreases |ls|
  {
    if ls != [] {
      NoWaitRest(ls);
      OnlyAWaitingParentIsResumed(Apply(s, ls[0]), ls[1..], c);
    }
  }

  /** Once the parent has finished, a re-read is refused; once it is cancelled, only the update is too late. */
  lemma EndedParentIsRefusedLate(s: Parent, c: nat)
    requires Enabled(s, Reread(c)) && s.callers[c].edit.None?
    ensures s.status != Waiting ==> Apply(Apply(s, Finish), Reread(c)).callers[c].progress == Refused
    ensures
      var s' := Apply(Apply(s, Cancel), Reread(c));
      Enabled(s', Update(c)) && Apply(s', Update(c)).callers[c].progress == AlreadyResuming
  {
  }

  /** What an editing caller has taken, or started the parent with, begins with its own entry. */
  predicate BeginsWithEdit(caller: Caller) {
    caller.edit.Some? ==>
      match caller.progress
      case Resuming(snapshot, origin, wrote) => snapshot != [] && snapshot[0] == caller.edit.value
      case Resumed(start, period, origin, wrote) => start != [] && start[0] == caller.edit.value
      case _ => true
  }

  predicate EditsKept(s: Parent) {
    forall c: nat :: c < |s.callers| ==> BeginsWithEdit(s.callers[c])
  }

  lemma {:induction false} RunKeepsEdits(s: Parent, ls: seq<Step>)
    requires CanRun(s, ls) && EditsKept(s)
    ensures EditsKept(Run(s, ls))
    decreases |ls|
  {
    if ls != [] {
      StepKeepsEdits(s, ls[0]);
      RunKeepsEdits(Apply(s, ls[0]), ls[1..]);
    }
  }

  lemma StepKeepsEdits(s: Parent, l: Step)
    requires Enabled(s, l) && EditsKept(s)
    ensures EditsKept(Apply(s, l))
  {
    var s' := Apply(s, l);
    forall c: nat | c < |s'.callers| ensures BeginsWithEdit(s'.callers[c]) {
      if c < |s.callers| { assert BeginsWithEdit(s.callers[c]); }
    }
  }

  /**
   * In every run from the start, however late: a webhook, a form or a chat message that resumes the parent starts it with the
   * entry that it has put at the head, so what it received is not lost.
   */
  lemma EditedResumeStartsWithTheEdit(stack: Stack, ls: seq<Step>, c: nat)
    requires CanRun(Start(stack), ls) && At(Run(Start(stack), ls), c)
    requires Run(Start(stack), ls).callers[c].progress.Resumed? && Run(Start(stack), ls).callers[c].edit.Some?
    ensures
      var caller := Run(Start(stack), ls).callers[c];
      caller.progress.start != [] && caller.progress.start[0] == caller.edit.value
  {
    RunKeepsEdits(Start(stack), ls);
    assert BeginsWithEdit(Run(Start(stack), ls).callers[c]);
  }

  /**
   * In every timely run from the start, entry by entry: the parent starts with the stack of the period's entry, in which only
   * the first entry may differ. That is the caller's own if it edits; otherwise its data are the output of the last child
   * whose write had landed, and those of the period's entry when there is none.
   */
  lemma TimelyResumeEntryByEntry(stack: Stack, ls: seq<Step>, c: nat)
    requires CanRun(Start(stack), ls) && TimelyRun(Start(stack), ls)
    requires At(Run(Start(stack), ls), c) && Run(Start(stack), ls).callers[c].progress.Resumed?
    ensures
      var s' := Run(Start(stack), ls);
      var own, edit := s'.callers[c].progress, s'.callers[c].edit;
      && IsPeriod(s', own.period)
      && var base := s'.bases[own.period - 1];
      && |own.start| == |base| && (base != [] ==> own.start[1..] == base[1..])
      && (edit.Some? ==> base != [] && own.start[0] == edit.value)
      && (edit.None? && base != [] ==>
            && own.origin.Entry? && own.start[0].node == base[0].node
            && match own.origin.writer
               case None => own.start[0].data == base[0].data
               case Some(k) => At(s', k) && s'.callers[k].output == Some(own.start[0].data))
  {
    TimelyResumesStartWithTheLastWrite(stack, ls, c);
    if Run(Start(stack), ls).callers[c].edit.Some? { EditedResumeStartsWithTheEdit(stack, ls, c); }
  }

  // ---------------------------------------------------------------------
  // What the missing conditions let through
  // ---------------------------------------------------------------------

  lemma Prepend(s: Parent, l: Step, ls: seq<Step>)
    requires Enabled(s, l) && CanRun(Apply(s, l), ls)
    ensures CanRun(s, [l] + ls) && Run(s, [l] + ls) == Run(Apply(s, l), ls)
  {
    assert ([l] + ls)[1..] == ls;
  }

  lemma {:induction false} RunAppend(s: Parent, a: seq<Step>, b: seq<Step>)
    requires CanRun(s, a) && CanRun(Run(s, a), b)
    ensures CanRun(s, a + b) && Run(s, a + b) == Run(Run(s, a), b)
    decreases |a|
  {
    if a == [] {
      assert a + b == b;
    } else {
      RunAppend(Apply(s, a[0]), a[1..], b);
      assert (a + b)[1..] == a[1..] + b;
    }
  }

  /** A parent that waits with the given stack, and one completed child. */
  function WaitingParent(base: Stack, output: Value): Parent {
    Parent(Waiting, base, [Caller(Some(output), None, Reporting)], [base], Entry(1, None, None))
  }

  /** The child has read, and a timer has resumed the parent. */
  function ReadThenResumed(base: Stack, output: Value): Parent {
    Parent(Running, base,
           [Caller(Some(output), None, Holding(WithHead(base, output), 1)),
            Caller(None, None, Resumed(base, 1, Entry(1, None, None), None))],
           [base], Entry(1, None, None))
  }

  lemma ReachReadThenResumed(base: Stack, output: Value)
    requires base != []
    ensures
      var s, ls := WaitingParent(base, output), [Read(0), CallResume(None), Reread(1), Update(1)];
      CanRun(s, ls) && Run(s, ls) == ReadThenResumed(base, output)
  {
    var s := WaitingParent(base, output);
    var s1 := Apply(s, Read(0));
    var s2 := Apply(s1, CallResume(None));
    var s3 := Apply(s2, Reread(1));
    var s4 := Apply(s3, Update(1));
    assert s4.callers == ReadThenResumed(base, output).callers;
    Prepend(s3, Update(1), []);
    Prepend(s2, Reread(1), [Update(1)]);
    Prepend(s1, CallResume(None), [Reread(1), Update(1)]);
    Prepend(s, Read(0), [CallResume(None), Reread(1), Update(1)]);
  }

  lemma LateWriteLands(base: Stack, next: Stack, output: Value)
    ensures
      var s, ls := ReadThenResumed(base, output), [Wait(next), Write(0), CallResume(None), Reread(2), Update(2)];
      && CanRun(s, ls) && |Run(s, ls).callers| == 3 && Run(s, ls).bases == [base, next]
      && Run(s, ls).callers[2].progress == Resumed(WithHead(base, output), 2, Entry(1, Some(0), None), None)
  {
    var s := ReadThenResumed(base, output);
    var s1 := Apply(s, Wait(next));
    var s2 := Apply(s1, Write(0));
    var s3 := Apply(s2, CallResume(None));
    var s4 := Apply(s3, Reread(2));
    var s5 := Apply(s4, Update(2));
    Prepend(s4, Update(2), []);
    Prepend(s3, Reread(2), [Update(2)]);
    Prepend(s2, CallResume(None), [Reread(2), Update(2)]);
    Prepend(s1, Write(0), [CallResume(None), Reread(2), Update(2)]);
    Prepend(s, Wait(next), [Write(0), CallResume(None), Reread(2), Update(2)]);
  }

  /**
   * A child reads, the parent is resumed and waits again, and only then does the child write: the next resume starts the
   * parent with the stack of the earlier period.
   */
  lemma LateWriteBringsBackTheOldStack(base: Stack, next: Stack, output: Value)
    requires base != []
    ensures
      var s := WaitingParent(base, output);
      var ls := [Read(0), CallResume(None), Reread(1), Update(1)]
              + [Wait(next), Write(0), CallResume(None), Reread(2), Update(2)];
      && Inv(s) && CanRun(s, ls)
      && var s' := Run(s, ls);
      && |s'.callers| == 3 && s'.bases == [base, next]
      && s'.callers[2].progress.Resumed? && s'.callers[2].progress.start == WithHead(base, output)
  {
    ReachReadThenResumed(base, output);
    LateWriteLands(base, next, output);
    RunAppend(WaitingParent(base, output), [Read(0), CallResume(None), Reread(1), Update(1)],
              [Wait(next), Write(0), CallResume(None), Reread(2), Update(2)]);
  }

  /** A waiting webhook that has received something resumes the parent: its entry is at the head, and the rest is as it was. */
  lemma WebhookHandsOverWhatItReceived(base: Stack, output: Value, received: Item)
    requires base != []
    ensures
      var s, ls := WaitingParent(base, output), [CallResume(Some(received)), Reread(1), Update(1)];
      && CanRun(s, ls) && |Run(s, ls).callers| == 2
      && Run(s, ls).status == Running && Run(s, ls).stack == [received] + base[1..]
      && Run(s, ls).callers[1].progress.Resumed? && Run(s, ls).callers[1].progress.start == [received] + base[1..]
  {
    var s := WaitingParent(base, output);
    var s1 := Apply(s, CallResume(Some(received)));
    var s2 := Apply(s1, Reread(1));
    Prepend(s2, Update(1), []);
    Prepend(s1, Reread(1), [Update(1)]);
    Prepend(s, CallResume(Some(received)), [Reread(1), Update(1)]);
  }

  /** One caller has re-read the parent and waits for a slot; another has resumed it. */
  function RereadThenResumed(base: Stack, output: Value): Parent {
    Parent(Running, base,
           [Caller(Some(output), None, Reporting), Caller(None, None, Resuming(base, Entry(1, None, None), None)),
            Caller(None, None, Resumed(base, 1, Entry(1, None, None), None))],
           [base], Entry(1, None, None))
  }

  lemma ReachRereadThenResumed(base: Stack, output: Value)
    ensures
      var s, ls := WaitingParent(base, output), [CallResume(None), Reread(1), CallResume(None), Reread(2), Update(2)];
      CanRun(s, ls) && Run(s, ls) == RereadThenResumed(base, output)
  {
    var s := WaitingParent(base, output);
    var s1 := Apply(s, CallResume(None));
    var s2 := Apply(s1, Reread(1));
    var s3 := Apply(s2, CallResume(None));
    var s4 := Apply(s3, Reread(2));
    var s5 := Apply(s4, Update(2));
    assert s5.callers == RereadThenResumed(base, output).callers;
    Prepend(s4, Update(2), []);
    Prepend(s3, Reread(2), [Update(2)]);
    Prepend(s2, CallResume(None), [Reread(2), Update(2)]);
    Prepend(s1, Reread(1), [CallResume(None), Reread(2), Update(2)]);
    Prepend(s, CallResume(None), [Reread(1), CallResume(None), Reread(2), Update(2)]);
  }

  /**
   * A caller re-reads the parent and waits for its slot; meanwhile the parent is resumed and waits again. The caller's
   * update then wins, and starts the parent with the stack of the earlier period. Nothing was written late.
   */
  lemma LateUpdateBringsBackTheOldStack(base: Stack, next: Stack, output: Value)
    ensures
      var s := WaitingParent(base, output);
      var ls := [CallResume(None), Reread(1), CallResume(None), Reread(2), Update(2)] + [Wait(next), Update(1)];
      && Inv(s) && CanRun(s, ls)
      && var s' := Run(s, ls);
      && |s'.callers| == 3 && s'.bases == [base, next]
      && s'.callers[1].progress == Resumed(base, 2, Entry(1, None, None), None)
  {
    var s := RereadThenResumed(base, output);
    var s1 := Apply(s, Wait(next));
    var s2 := Apply(s1, Update(1));
    Prepend(s1, Update(1), []);
    Prepend(s, Wait(next), [Update(1)]);
    ReachRereadThenResumed(base, output);
    RunAppend(WaitingParent(base, output), [CallResume(None), Reread(1), CallResume(None), Reread(2), Update(2)],
              [Wait(next), Update(1)]);
  }

  lemma PrependTimely(s: Parent, l: Step, ls: seq<Step>)
    requires Enabled(s, l) && Timely(s, l) && CanRun(Apply(s, l), ls) && TimelyRun(Apply(s, l), ls)
    ensures CanRun(s, [l] + ls) && TimelyRun(s, [l] + ls) && Run(s, [l] + ls) == Run(Apply(s, l), ls)
  {
    assert ([l] + ls)[1..] == ls;
  }

  /** The child has read the running parent and found nothing to write; then the parent waits. */
  function ReadThenWaits(base: Stack, output: Value): Parent {
    Parent(Waiting, base, [Caller(Some(output), None, Ready(None))], [base], Entry(1, None, None))
  }

  lemma ReachReadThenWaits(stack: Stack, base: Stack, output: Value, ls: seq<Step>)
    requires CanRun(ReadThenWaits(base, output), ls) && TimelyRun(ReadThenWaits(base, output), ls)
    ensures
      var s, all := Start(stack), [CompleteChild(Some(output)), Read(0), Wait(base)] + ls;
      CanRun(s, all) && TimelyRun(s, all) && Run(s, all) == Run(ReadThenWaits(base, output), ls)
  {
    var s := Start(stack);
    var s1 := Apply(s, CompleteChild(Some(output)));
    var s2 := Apply(s1, Read(0));
    assert s2.callers == [Caller(Some(output), None, Ready(None))];
    assert Apply(s2, Wait(base)).bases == [base] && Apply(s2, Wait(base)) == ReadThenWaits(base, output);
    PrependTimely(s2, Wait(base), ls);
    PrependTimely(s1, Read(0), [Wait(base)] + ls);
    PrependTimely(s, CompleteChild(Some(output)), [Read(0)] + ([Wait(base)] + ls));
    assert [CompleteChild(Some(output))] + ([Read(0)] + ([Wait(base)] + ls))
        == [CompleteChild(Some(output)), Read(0), Wait(base)] + ls;
  }

  lemma ReadyChildResumes(base: Stack, output: Value)
    ensures
      var s, ls := ReadThenWaits(base, output), [Reread(0), Update(0)];
      && CanRun(s, ls) && TimelyRun(s, ls) && |Run(s, ls).callers| == 1
      && Run(s, ls).callers[0].progress == Resumed(base, 1, Entry(1, None, None), None)
  {
    var s := ReadThenWaits(base, output);
    var s1 := Apply(s, Reread(0));
    var s2 := Apply(s1, Update(0));
    PrependTimely(s1, Update(0), []);
    PrependTimely(s, Reread(0), [Update(0)]);
    assert [Update(0)] + [] == [Update(0)] && [Reread(0)] + [Update(0)] == [Reread(0), Update(0)];
  }

  /**
   * A child that reads just before the parent waits writes nothing, but still resumes the parent: in a timely run, the
   * parent starts with its original stack, as if the child had returned its own input.
   */
  lemma EarlyReadResumesWithTheInput(stack: Stack, base: Stack, output: Value)
    ensures
      var s := Start(stack);
      var ls := [CompleteChild(Some(output)), Read(0), Wait(base)] + [Reread(0), Update(0)];
      && CanRun(s, ls) && TimelyRun(s, ls)
      && var s' := Run(s, ls);
      && |s'.callers| == 1 && s'.callers[0].progress == Resumed(base, 1, Entry(1, None, None), None)
  {
    ReadyChildResumes(base, output);
    ReachReadThenWaits(stack, base, output, [Reread(0), Update(0)]);
  }
}
