/** What the steps on one process's table keep. */
module TableInvariants {
  import opened Common
  import opened ExecutionTable
  import Slots = ConcurrencyQueue

  // ---------------------------------------------------------------------
  // Queues and the calls that wait in them
  // ---------------------------------------------------------------------

  predicate Awaits(p: Process, q: QueueType, w: Slots.Waiter) {
    && w.call < |p.calls|
    && p.calls[w.call].phase.Queued?
    && QueueFor(p.calls[w.call].mode) == Some(q)
    && p.calls[w.call].execution == w.executionId
  }

  predicate Distinct(s: seq<Slots.Waiter>) {
    forall i, j :: 0 <= i < j < |s| ==> s[i].call != s[j].call
  }

  /** Every queued promise belongs to one call that is waiting for it. */
  predicate QueuesMatch(p: Process) {
    forall q :: q in p.queues ==>
      && (forall w :: w in p.queues[q].waiting ==> Awaits(p, q, w))
      && Distinct(p.queues[q].waiting)
  }

  // ---------------------------------------------------------------------
  // The table
  // ---------------------------------------------------------------------

  predicate IsLatest(p: Process, c: nat) {
    IsInstalled(p, c) && p.calls[c].execution in p.latest && p.latest[p.calls[c].execution] == c
  }

  predicate EntryOk(p: Process, e: ExecutionId, c: nat) {
    IsInstalled(p, c) && p.calls[c].execution == e
  }

  ghost predicate EntriesOk(p: Process) {
    forall e :: e in p.table ==> EntryOk(p, e, p.table[e])
  }

  /**
   * The current record is the latest one; the latest one stays in the table until its handler has run, unless it is
   * waiting and settled; a replaced record is waiting, so its handler will not delete; a handler runs after settling.
   */
  predicate RecordOk(p: Process, c: nat)
    requires IsInstalled(p, c)
  {
    var r := RecordOf(p, c);
    && p.calls[c].execution in p.latest
    && (InTable(p, c) ==> IsLatest(p, c))
    && (IsLatest(p, c) && !r.handled && (r.promise.Pending? || r.status != Waiting) ==> InTable(p, c))
    && (!IsLatest(p, c) && !r.handled ==> r.status == Waiting)
    && (r.handled ==> !r.promise.Pending?)
    && (InTable(p, c) && r.handled ==> r.status == Waiting)
  }

  ghost predicate Consistent(p: Process) {
    && QueuesMatch(p)
    && (forall e :: e in p.table ==> EntryOk(p, e, p.table[e]))
    && (forall e :: e in p.latest ==> EntryOk(p, e, p.latest[e]))
    && (forall c: nat :: IsInstalled(p, c) ==> RecordOk(p, c))
  }

  // ---------------------------------------------------------------------
  // Steps that touch no record
  // ---------------------------------------------------------------------

  /** No step un-marks a waiting record, un-settles a promise, or un-runs a handler, and the start time stays. */
  predicate RecordFollows(r: Record, r': Record) {
    && r'.startedAt == r.startedAt
    && (r.status == Waiting ==> r'.status == Waiting)
    && (!r.promise.Pending? ==> r'.promise == r.promise)
    && (r.handled ==> r'.handled)
  }

  /** How the phase of one call can go on. */
  predicate PhaseFollows(x: Phase, y: Phase) {
    match x
    case Queued => true
    case Reserved => !y.Queued? && !y.Dropped?
    case Won => y.Won? || y.Installed?
    case Lost => y.Lost? || y.ThrewAlreadyResuming?
    case Failed => y.Failed? || y.ThrewDatabaseError?
    case ThrewAlreadyResuming => y == x
    case ThrewDatabaseError => y == x
    case Dropped => y == x
    case Installed(r) => y.Installed? && RecordFollows(r, y.record)
  }

  predicate CallFollows(a: Call, b: Call) {
    a.execution == b.execution && a.mode == b.mode && a.resume == b.resume && PhaseFollows(a.phase, b.phase)
  }

  predicate SameCall(a: Call, b: Call) {
    && CallFollows(a, b)
    && (b.phase.Won? ==> a.phase.Won?)
    && a.phase.Installed? == b.phase.Installed?
    && (a.phase.Installed? ==> a.phase == b.phase)
  }

  /** Only phases before installation differ, and new calls may have begun. */
  ghost predicate SameRecords(p: Process, p': Process) {
    && |p.calls| <= |p'.calls|
    && p'.table == p.table && p'.latest == p.latest && p'.responseModes == p.responseModes
    && p'.enabled == p.enabled && p'.limits == p.limits && p'.queues.Keys == p.queues.Keys
    && (forall c: nat :: c < |p.calls| ==> SameCall(p.calls[c], p'.calls[c]))
    && (forall c: nat :: |p.calls| <= c < |p'.calls| ==> !p'.calls[c].phase.Won? && !p'.calls[c].phase.Installed?)
  }

  lemma CallFollowsTransitive(a: Call, b: Call, c: Call)
    requires CallFollows(a, b) && CallFollows(b, c)
    ensures CallFollows(a, c)
  {
  }

  lemma SameRecordsTransitive(p: Process, q: Process, r: Process)
    requires SameRecords(p, q) && SameRecords(q, r)
    ensures SameRecords(p, r)
  {
    forall c: nat | c < |p.calls| ensures SameCall(p.calls[c], r.calls[c]) {
      assert SameCall(p.calls[c], q.calls[c]) && SameCall(q.calls[c], r.calls[c]);
      CallFollowsTransitive(p.calls[c], q.calls[c], r.calls[c]);
    }
    forall c: nat | |p.calls| <= c < |r.calls| ensures !r.calls[c].phase.Won? && !r.calls[c].phase.Installed? {
      if c < |q.calls| {
        assert SameCall(q.calls[c], r.calls[c]);
      }
    }
  }

  lemma SameRecordsConsistent(p: Process, p': Process)
    requires Consistent(p) && SameRecords(p, p') && QueuesMatch(p')
    ensures Consistent(p')
  {
    forall c: nat | IsInstalled(p', c) ensures RecordOk(p', c) {
      assert c < |p.calls| && SameCall(p.calls[c], p'.calls[c]);
      assert RecordOk(p, c);
    }
    forall e | e in p'.table ensures EntryOk(p', e, p'.table[e]) {
      assert EntryOk(p, e, p.table[e]) && SameCall(p.calls[p.table[e]], p'.calls[p.table[e]]);
    }
    forall e | e in p'.latest ensures EntryOk(p', e, p'.latest[e]) {
      assert EntryOk(p, e, p.latest[e]) && SameCall(p.calls[p.latest[e]], p'.calls[p.latest[e]]);
    }
  }

  /** A call that is not queued may change phase without disturbing the queues. */
  lemma SetPhaseQueues(p: Process, c: nat, phase: Phase)
    requires QueuesMatch(p) && c < |p.calls| && !p.calls[c].phase.Queued?
    ensures QueuesMatch(SetPhase(p, c, phase))
  {
  }

  lemma WaitingFor(p: Process, q: QueueType, w: Slots.Waiter)
    requires QueuesMatch(p) && q in p.queues && w in p.queues[q].waiting
    ensures Awaits(p, q, w)
  {
  }

  /** Taking promises out of one queue, and letting the calls of some of them continue, keeps the rest matched. */
  lemma ShrinkQueue(p: Process, q: QueueType, s: Slots.State, calls: seq<Call>)
    requires QueuesMatch(p) && q in p.queues && |calls| == |p.calls|
    requires Distinct(s.waiting)
    requires forall w :: w in s.waiting ==> w in p.queues[q].waiting && calls[w.call] == p.calls[w.call]
    requires forall c: nat :: c < |calls| && calls[c] != p.calls[c] ==> QueueFor(p.calls[c].mode) == Some(q)
    ensures QueuesMatch(p.(queues := p.queues[q := s], calls := calls))
  {
    var p' := p.(queues := p.queues[q := s], calls := calls);
    forall q', w | q' in p'.queues && w in p'.queues[q'].waiting ensures Awaits(p', q', w) {
      WaitingFor(p, q', w);
    }
  }

  /** A queued call changes phase, and one queue changes. */
  lemma QueuedPhaseSame(p: Process, q: QueueType, s: Slots.State, c: nat, phase: Phase)
    requires q in p.queues && c < |p.calls| && p.calls[c].phase.Queued? && !phase.Installed? && !phase.Won?
    ensures SameRecords(p, SetPhase(p.(queues := p.queues[q := s]), c, phase))
  {
  }

  /** The other promises of the queue belong to other calls. */
  lemma OthersAreOther(p: Process, q: QueueType, i: nat, v: Slots.Waiter)
    requires QueuesMatch(p) && q in p.queues && i < |p.queues[q].waiting|
    requires v in Slots.WithoutIndex(p.queues[q].waiting, i)
    ensures v in p.queues[q].waiting && Awaits(p, q, v) && v.call != p.queues[q].waiting[i].call
  {
    var s := p.queues[q].waiting;
    var r := Slots.WithoutIndex(s, i);
    var j :| 0 <= j < |r| && r[j] == v;
    assert v == s[if j < i then j else j + 1];
    WaitingFor(p, q, v);
  }

  lemma WithoutIndexDistinct(s: seq<Slots.Waiter>, i: nat)
    requires Distinct(s) && i < |s|
    ensures Distinct(Slots.WithoutIndex(s, i))
  {
    var r := Slots.WithoutIndex(s, i);
    assert forall j :: 0 <= j < |r| ==> r[j] == s[if j < i then j else j + 1];
  }

  /** One promise leaves a queue, and its call moves on to another phase. */
  lemma LeaveQueue(p: Process, q: QueueType, i: nat, capacity: int, phase: Phase)
    requires QueuesMatch(p) && q in p.queues && i < |p.queues[q].waiting|
    ensures p.queues[q].waiting[i].call < |p.calls|
    ensures QueuesMatch(SetPhase(
      p.(queues := p.queues[q := Slots.State(capacity, Slots.WithoutIndex(p.queues[q].waiting, i))]),
      p.queues[q].waiting[i].call, phase))
  {
    var waiting := p.queues[q].waiting;
    var w := waiting[i];
    WaitingFor(p, q, w);
    WithoutIndexDistinct(waiting, i);
    var calls := SetPhase(p, w.call, phase).calls;
    forall v | v in Slots.WithoutIndex(waiting, i)
      ensures v in waiting && v.call < |calls| && calls[v.call] == p.calls[v.call]
    {
      OthersAreOther(p, q, i, v);
    }
    ShrinkQueue(p, q, Slots.State(capacity, Slots.WithoutIndex(waiting, i)), calls);
  }

  lemma ResolveNextKeeps(p: Process, q: QueueType)
    requires QueuesMatch(p) && q in p.queues
    ensures QueuesMatch(ResolveNext(p, q)) && SameRecords(p, ResolveNext(p, q))
  {
    var s := p.queues[q];
    if s.waiting == [] {
      assert ResolveNext(p, q) == p;
    } else {
      WaitingFor(p, q, s.waiting[0]);
      LeaveQueue(p, q, 0, s.capacity, Reserved);
      QueuedPhaseSame(p, q, Slots.NextResolved(s), s.waiting[0].call, Reserved);
      assert Slots.WithoutIndex(s.waiting, 0) == s.waiting[1..];
    }
  }

  lemma ReleaseKeeps(p: Process, mode: Mode)
    requires QueuesMatch(p)
    ensures QueuesMatch(Release(p, mode)) && SameRecords(p, Release(p, mode))
  {
    if QueueOf(p, mode).Some? {
      var q := QueueOf(p, mode).value;
      AddCapacityKeeps(p, q);
      ResolveNextKeeps(AddCapacity(p, q), q);
    }
  }

  lemma AddCapacityKeeps(p: Process, q: QueueType)
    requires QueuesMatch(p) && q in p.queues
    ensures QueuesMatch(AddCapacity(p, q))
  {
    forall w | w in p.queues[q].waiting ensures w.call < |p.calls| { WaitingFor(p, q, w); }
    ShrinkQueue(p, q, AddCapacity(p, q).queues[q], p.calls);
  }

  lemma AppendCallQueues(p: Process, call: Call)
    requires QueuesMatch(p)
    ensures QueuesMatch(p.(calls := p.calls + [call]))
  {
    var p' := p.(calls := p.calls + [call]);
    forall q, w | q in p'.queues && w in p'.queues[q].waiting ensures Awaits(p', q, w) {
      WaitingFor(p, q, w);
    }
  }

  lemma EnqueueQueues(p: Process, q: QueueType, w: Slots.Waiter, capacity: int)
    requires QueuesMatch(p) && q in p.queues && Awaits(p, q, w)
    requires forall v :: v in p.queues[q].waiting ==> v.call != w.call
    ensures QueuesMatch(p.(queues := p.queues[q := Slots.State(capacity, p.queues[q].waiting + [w])]))
  {
    var p' := p.(queues := p.queues[q := Slots.State(capacity, p.queues[q].waiting + [w])]);
    forall q', v | q' in p'.queues && v in p'.queues[q'].waiting ensures Awaits(p', q', v) {
      if q' != q || v in p.queues[q].waiting { WaitingFor(p, q', v); }
    }
  }

  lemma GrantedQueues(p: Process, q: QueueType, call: Call, w: Slots.Waiter)
    requires QueuesMatch(p) && q in p.queues && Slots.GrantsAtOnce(p.queues[q])
    ensures QueuesMatch(p.(queues := p.queues[q := Slots.Enqueued(p.queues[q], w)], calls := p.calls + [call]))
  {
    var p1 := p.(calls := p.calls + [call]);
    AppendCallQueues(p, call);
    forall v | v in p.queues[q].waiting ensures v.call < |p1.calls| { WaitingFor(p, q, v); }
    ShrinkQueue(p1, q, Slots.Enqueued(p.queues[q], w), p1.calls);
  }

  lemma QueuedQueues(p: Process, q: QueueType, call: Call, w: Slots.Waiter)
    requires QueuesMatch(p) && q in p.queues && !Slots.GrantsAtOnce(p.queues[q])
    requires w == Slots.Waiter(call.execution, |p.calls|) && call.phase.Queued? && QueueFor(call.mode) == Some(q)
    ensures QueuesMatch(p.(queues := p.queues[q := Slots.Enqueued(p.queues[q], w)], calls := p.calls + [call]))
  {
    AppendCallQueues(p, call);
    forall v | v in p.queues[q].waiting ensures v.call < |p.calls| { WaitingFor(p, q, v); }
    EnqueueQueues(p.(calls := p.calls + [call]), q, w, p.queues[q].capacity - 1);
  }

  lemma BeginQueues(p: Process, e: ExecutionId, mode: Mode, resume: bool)
    requires QueuesMatch(p)
    ensures QueuesMatch(Begin(p, e, mode, resume))
  {
    match QueueOf(p, mode) {
      case None => AppendCallQueues(p, Call(e, mode, resume, Reserved));
      case Some(q) =>
        if Slots.GrantsAtOnce(p.queues[q]) {
          GrantedQueues(p, q, Call(e, mode, resume, Reserved), Slots.Waiter(e, |p.calls|));
        } else {
          QueuedQueues(p, q, Call(e, mode, resume, Queued), Slots.Waiter(e, |p.calls|));
        }
    }
  }

  lemma BeginKeeps(p: Process, e: ExecutionId, mode: Mode, resume: bool)
    requires QueuesMatch(p)
    ensures QueuesMatch(Begin(p, e, mode, resume)) && SameRecords(p, Begin(p, e, mode, resume))
  {
    BeginQueues(p, e, mode, resume);
  }

  lemma ThrowKeeps(p: Process, c: nat)
    requires QueuesMatch(p) && CanThrow(p, c)
    ensures QueuesMatch(Throw(p, c)) && SameRecords(p, Throw(p, c))
  {
    var phase := if p.calls[c].phase.Lost? then ThrewAlreadyResuming else ThrewDatabaseError;
    SetPhaseQueues(p, c, phase);
    ReleaseKeeps(SetPhase(p, c, phase), p.calls[c].mode);
  }

  lemma DropQueuedKeeps(p: Process, q: QueueType, e: ExecutionId)
    requires QueuesMatch(p) && q in p.queues && Slots.Has(p.queues[q], e)
    ensures QueuesMatch(DropQueued(p, q, e)) && SameRecords(p, DropQueued(p, q, e))
  {
    var s := p.queues[q];
    var i := Slots.FindIndex(s.waiting, e);
    WaitingFor(p, q, s.waiting[i]);
    LeaveQueue(p, q, i, s.capacity + 1, Dropped);
    QueuedPhaseSame(p, q, Slots.Drop(s, e), s.waiting[i].call, Dropped);
  }

  lemma RemoveQueuedKeeps(p: Process, e: ExecutionId, mode: Mode)
    requires QueuesMatch(p)
    ensures QueuesMatch(RemoveQueued(p, e, mode)) && SameRecords(p, RemoveQueued(p, e, mode))
  {
    if QueueOf(p, mode).Some? && Slots.Has(p.queues[QueueOf(p, mode).value], e) {
      var q := QueueOf(p, mode).value;
      DropQueuedKeeps(p, q, e);
      ResolveNextKeeps(DropQueued(p, q, e), q);
      SameRecordsTransitive(p, DropQueued(p, q, e), RemoveQueued(p, e, mode));
    }
  }

  // ---------------------------------------------------------------------
  // Steps on records
  // ---------------------------------------------------------------------

  lemma UpdateKeeps(p: Process, e: ExecutionId, r: Record)
    requires Consistent(p) && Current(p, e).Some?
    requires RecordFollows(Current(p, e).value, r) && r.handled == Current(p, e).value.handled
    ensures Consistent(UpdateCurrent(p, e, r))
  {
    var c := p.table[e];
    var p' := UpdateCurrent(p, e, r);
    SetPhaseQueues(p, c, Installed(r));
    assert EntryOk(p, e, c) && RecordOk(p, c);
    forall d: nat | IsInstalled(p', d) ensures RecordOk(p', d) {
      assert RecordOk(p, d);
    }
    forall f | f in p'.table ensures EntryOk(p', f, p'.table[f]) { assert EntryOk(p, f, p.table[f]); }
    forall f | f in p'.latest ensures EntryOk(p', f, p'.latest[f]) { assert EntryOk(p, f, p.latest[f]); }
  }

  /** The entry that an install replaces must be waiting. */
  lemma InstallKeeps(p: Process, c: nat, now: int)
    requires Consistent(p) && CanInstall(p, c)
    requires var e := p.calls[c].execution; Current(p, e).Some? ==> Current(p, e).value.status == Waiting
    ensures Consistent(Install(p, c, now))
  {
    var e := p.calls[c].execution;
    var p' := Install(p, c, now);
    SetPhaseQueues(p, c, Installed(NewRecord(p, e, now)));
    if e in p.table { assert EntryOk(p, e, p.table[e]); }
    forall d: nat | IsInstalled(p', d) ensures RecordOk(p', d) {
      if d != c {
        assert RecordOk(p, d);
        if p.calls[d].execution == e && IsLatest(p, d) {
          assert !RecordOf(p, d).handled ==> RecordOf(p, d).status == Waiting;
        }
      }
    }
    forall f | f in p'.table ensures EntryOk(p', f, p'.table[f]) { if f != e { assert EntryOk(p, f, p.table[f]); } }
    forall f | f in p'.latest ensures EntryOk(p', f, p'.latest[f]) { if f != e { assert EntryOk(p, f, p.latest[f]); } }
  }

  /** Dropping a waiting, settled entry from the table. */
  lemma ForgetKeeps(p: Process, e: ExecutionId)
    requires Consistent(p)
    requires Current(p, e).Some? && Current(p, e).value.status == Waiting && !Current(p, e).value.promise.Pending?
    ensures Consistent(Forget(p, e))
  {
    var p' := Forget(p, e);
    assert EntryOk(p, e, p.table[e]);
    forall d: nat | IsInstalled(p', d) ensures RecordOk(p', d) {
      assert RecordOk(p, d);
    }
    forall f | f in p'.table ensures EntryOk(p', f, p'.table[f]) { assert EntryOk(p, f, p.table[f]); }
    forall f | f in p'.latest ensures EntryOk(p', f, p'.latest[f]) { assert EntryOk(p, f, p.latest[f]); }
  }

  /** A settle handler, before the slot goes back. */
  function HandleRecord(p: Process, c: nat): Process
    requires CanHandle(p, c)
  {
    var p' := SetRecord(p, c, RecordOf(p, c).(handled := true));
    if RecordOf(p, c).status == Waiting then p' else Forget(p', p.calls[c].execution)
  }

  /** The deletion by id only ever hits the handler's own record. */
  lemma HandleDeletesOwnRecord(p: Process, c: nat)
    requires Consistent(p) && CanHandle(p, c) && RecordOf(p, c).status != Waiting
    ensures InTable(p, c)
  {
    assert RecordOk(p, c);
  }

  lemma HandleRecordKeeps(p: Process, c: nat)
    requires Consistent(p) && CanHandle(p, c)
    ensures Consistent(HandleRecord(p, c))
  {
    var e := p.calls[c].execution;
    var p' := HandleRecord(p, c);
    SetPhaseQueues(p, c, Installed(RecordOf(p, c).(handled := true)));
    assert RecordOk(p, c);
    if RecordOf(p, c).status != Waiting { HandleDeletesOwnRecord(p, c); }
    forall d: nat | IsInstalled(p', d) ensures RecordOk(p', d) {
      assert RecordOk(p, d);
    }
    forall f | f in p'.table ensures EntryOk(p', f, p'.table[f]) { assert EntryOk(p, f, p.table[f]); }
    forall f | f in p'.latest ensures EntryOk(p', f, p'.latest[f]) { assert EntryOk(p, f, p.latest[f]); }
  }

  /** Freeing a slot and dropping an entry do not interfere. */
  lemma ForgetGrant(p: Process, next: Option<Slots.Waiter>, e: ExecutionId)
    ensures Forget(Grant(p, next), e) == Grant(Forget(p, e), next)
  {
  }

  lemma ForgetResolveNext(p: Process, q: QueueType, e: ExecutionId)
    requires q in p.queues
    ensures Forget(ResolveNext(p, q), e) == ResolveNext(Forget(p, e), q)
  {
    ForgetGrant(p.(queues := p.queues[q := Slots.NextResolved(p.queues[q])]), Slots.Next(p.queues[q]), e);
  }

  lemma ForgetRelease(p: Process, mode: Mode, e: ExecutionId)
    ensures Forget(Release(p, mode), e) == Release(Forget(p, e), mode)
  {
    if QueueOf(p, mode).Some? {
      var q := QueueOf(p, mode).value;
      ForgetResolveNext(AddCapacity(p, q), q, e);
      assert AddCapacity(Forget(p, e), q) == Forget(AddCapacity(p, q), e);
    }
  }

  lemma HandleIsRelease(p: Process, c: nat)
    requires CanHandle(p, c)
    ensures Handle(p, c) == Release(HandleRecord(p, c), p.calls[c].mode)
  {
    ForgetRelease(SetRecord(p, c, RecordOf(p, c).(handled := true)), p.calls[c].mode, p.calls[c].execution);
  }

  lemma HandleKeeps(p: Process, c: nat)
    requires Consistent(p) && CanHandle(p, c)
    ensures Consistent(Handle(p, c))
  {
    HandleIsRelease(p, c);
    HandleRecordKeeps(p, c);
    var p' := HandleRecord(p, c);
    ReleaseKeeps(p', p.calls[c].mode);
    SameRecordsConsistent(p', Release(p', p.calls[c].mode));
  }

  /** A stop that drops a waiting record whose promise is still pending. */
  predicate LeakyStop(p: Process, e: ExecutionId) {
    Current(p, e).Some? && Current(p, e).value.status == Waiting && Current(p, e).value.promise.Pending?
  }

  lemma StopKeeps(p: Process, e: ExecutionId)
    requires Consistent(p) && !LeakyStop(p, e)
    ensures Consistent(Stop(p, e))
  {
    if Current(p, e).Some? {
      var r := Current(p, e).value;
      if r.status == Waiting { ForgetKeeps(p, e); } else { UpdateKeeps(p, e, r.(promise := Settle(r.promise, Rejected))); }
    }
  }

  // ---------------------------------------------------------------------
  // Capacity
  // ---------------------------------------------------------------------

  /** The call has a slot that it has not given back. */
  predicate HoldsSlot(call: Call, q: QueueType) {
    && QueueFor(call.mode) == Some(q)
    && match call.phase
       case Reserved => true
       case Won => true
       case Lost => true
       case Failed => true
       case Installed(r) => !r.handled
       case _ => false
  }

  function Held(calls: seq<Call>, q: QueueType): nat {
    if |calls| == 0 then 0
    else Held(calls[..|calls| - 1], q) + if HoldsSlot(calls[|calls| - 1], q) then 1 else 0
  }

  lemma {:induction false} HeldUpdate(calls: seq<Call>, i: nat, call: Call, q: QueueType)
    requires i < |calls|
    ensures Held(calls[i := call], q)
         == Held(calls, q) - (if HoldsSlot(calls[i], q) then 1 else 0) + (if HoldsSlot(call, q) then 1 else 0)
    decreases |calls|
  {
    var last := |calls| - 1;
    if i < last {
      HeldUpdate(calls[..last], i, call, q);
      assert calls[i := call][..last] == calls[..last][i := call];
    } else {
      assert calls[i := call][..last] == calls[..last];
    }
  }

  lemma HeldAppend(calls: seq<Call>, call: Call, q: QueueType)
    ensures Held(calls + [call], q) == Held(calls, q) + if HoldsSlot(call, q) then 1 else 0
  {
    assert (calls + [call])[..|calls|] == calls;
  }

  predicate Balanced(p: Process, q: QueueType)
    requires q in p.queues
  {
    q in p.limits && p.queues[q].capacity == p.limits[q] - Held(p.calls, q) - |p.queues[q].waiting|
  }

  /** Capacity, slots in use and queued promises always add up to the limit. */
  predicate CapacityBalanced(p: Process) {
    p.enabled && QueuesMatch(p) && forall q :: q in p.queues ==> Balanced(p, q)
  }

  lemma BeginBalancesOne(p: Process, e: ExecutionId, mode: Mode, resume: bool, q: QueueType)
    requires p.enabled && q in p.queues && Balanced(p, q)
    ensures Balanced(Begin(p, e, mode, resume), q)
  {
    match QueueOf(p, mode) {
      case None => HeldAppend(p.calls, Call(e, mode, resume, Reserved), q);
      case Some(mine) =>
        var granted := Slots.GrantsAtOnce(p.queues[mine]);
        HeldAppend(p.calls, Call(e, mode, resume, if granted then Reserved else Queued), q);
        if mine != q { assert Begin(p, e, mode, resume).queues[q] == p.queues[q]; }
    }
  }

  lemma BeginBalances(p: Process, e: ExecutionId, mode: Mode, resume: bool)
    requires CapacityBalanced(p)
    ensures CapacityBalanced(Begin(p, e, mode, resume))
  {
    BeginQueues(p, e, mode, resume);
    forall q | q in p.queues ensures Balanced(Begin(p, e, mode, resume), q) {
      BeginBalancesOne(p, e, mode, resume, q);
    }
  }

  /** One more free place is taken by the next queued call, if any. */
  lemma ResolveNextBalances(p: Process, q: QueueType, other: QueueType)
    requires QueuesMatch(p) && q in p.queues && other in p.queues
    ensures Held(ResolveNext(p, q).calls, other)
         == Held(p.calls, other) + if other == q && p.queues[q].waiting != [] then 1 else 0
  {
    var s := p.queues[q];
    if s.waiting != [] {
      var n := s.waiting[0].call;
      WaitingFor(p, q, s.waiting[0]);
      HeldUpdate(p.calls, n, p.calls[n].(phase := Reserved), other);
    }
  }

  /** A call that stops holding its slot releases it once. */
  lemma ReleaseBalances(p: Process, c: nat, phase: Phase)
    requires CapacityBalanced(p) && c < |p.calls| && !p.calls[c].phase.Queued?
    requires forall q :: QueueFor(p.calls[c].mode) == Some(q) ==> HoldsSlot(p.calls[c], q)
    requires forall q :: !HoldsSlot(p.calls[c].(phase := phase), q)
    ensures CapacityBalanced(Release(SetPhase(p, c, phase), p.calls[c].mode))
  {
    var mode := p.calls[c].mode;
    var p1 := SetPhase(p, c, phase);
    SetPhaseQueues(p, c, phase);
    ReleaseKeeps(p1, mode);
    var p' := Release(p1, mode);
    forall q | q in p'.queues ensures Balanced(p', q) {
      assert Balanced(p, q);
      HeldUpdate(p.calls, c, p.calls[c].(phase := phase), q);
      if QueueOf(p1, mode).Some? {
        var mine := QueueOf(p1, mode).value;
        AddCapacityKeeps(p1, mine);
        ResolveNextBalances(AddCapacity(p1, mine), mine, q);
      }
    }
  }

  lemma ThrowBalances(p: Process, c: nat)
    requires CapacityBalanced(p) && CanThrow(p, c)
    ensures CapacityBalanced(Throw(p, c))
  {
    ReleaseBalances(p, c, if p.calls[c].phase.Lost? then ThrewAlreadyResuming else ThrewDatabaseError);
  }

  lemma HandleBalances(p: Process, c: nat)
    requires CapacityBalanced(p) && CanHandle(p, c)
    ensures CapacityBalanced(Handle(p, c))
  {
    ReleaseBalances(p, c, Installed(RecordOf(p, c).(handled := true)));
  }

  /** A step that leaves the queues alone and keeps each call's claim to its slot. */
  lemma SameClaimBalances(p: Process, c: nat, phase: Phase)
    requires CapacityBalanced(p) && c < |p.calls| && !p.calls[c].phase.Queued?
    requires forall q :: HoldsSlot(p.calls[c].(phase := phase), q) <==> HoldsSlot(p.calls[c], q)
    ensures CapacityBalanced(SetPhase(p, c, phase))
  {
    SetPhaseQueues(p, c, phase);
    forall q | q in p.queues ensures Balanced(SetPhase(p, c, phase), q) {
      assert Balanced(p, q);
      HeldUpdate(p.calls, c, p.calls[c].(phase := phase), q);
    }
  }

  lemma ResolveNextQueues(p: Process, q: QueueType)
    requires QueuesMatch(p) && q in p.queues
    ensures ResolveNext(p, q).queues == p.queues[q := Slots.NextResolved(p.queues[q])]
    ensures ResolveNext(p, q).limits == p.limits && ResolveNext(p, q).enabled == p.enabled
  {
  }

  lemma RemoveQueuedBalancesOne(p: Process, mine: QueueType, e: ExecutionId, q: QueueType)
    requires QueuesMatch(p) && mine in p.queues && Slots.Has(p.queues[mine], e)
    requires q in p.queues && Balanced(p, q)
    ensures
      var p' := ResolveNext(DropQueued(p, mine, e), mine);
      q in p'.queues && Balanced(p', q)
  {
    var s := p.queues[mine];
    var w := s.waiting[Slots.FindIndex(s.waiting, e)];
    var p1 := DropQueued(p, mine, e);
    WaitingFor(p, mine, w);
    HeldUpdate(p.calls, w.call, p.calls[w.call].(phase := Dropped), q);
    DropQueuedKeeps(p, mine, e);
    ResolveNextBalances(p1, mine, q);
    ResolveNextQueues(p1, mine);
  }

  lemma RemoveQueuedBalances(p: Process, e: ExecutionId, mode: Mode)
    requires CapacityBalanced(p)
    ensures CapacityBalanced(RemoveQueued(p, e, mode))
  {
    RemoveQueuedKeeps(p, e, mode);
    if QueueOf(p, mode).Some? && Slots.Has(p.queues[QueueOf(p, mode).value], e) {
      var mine := QueueOf(p, mode).value;
      forall q | q in p.queues ensures Balanced(RemoveQueued(p, e, mode), q) {
        RemoveQueuedBalancesOne(p, mine, e, q);
      }
    }
  }
}
