/** Steps of one process on which nobody wins, nobody installs and no execution begins. */
module QuietSteps {
  import opened Common
  import opened ExecutionTable
  import opened TableInvariants

  predicate QuietCall(a: Call, b: Call) {
    && CallFollows(a, b)
    && (b.phase.Won? ==> a.phase.Won?)
    && a.phase.Installed? == b.phase.Installed?
  }

  /** Nobody wins, nobody installs, and no new execution begins. */
  ghost predicate CallsQuiet(p: Process, p': Process) {
    && |p.calls| <= |p'.calls|
    && (forall c: nat :: c < |p.calls| ==> QuietCall(p.calls[c], p'.calls[c]))
    && (forall c: nat :: |p.calls| <= c < |p'.calls| ==>
         p'.calls[c].resume && !p'.calls[c].phase.Won? && !p'.calls[c].phase.Installed?)
  }

  /** Besides, entries only leave the table. */
  ghost predicate Quiet(p: Process, p': Process) {
    CallsQuiet(p, p') && forall e :: e in p'.table ==> e in p.table && p'.table[e] == p.table[e]
  }

  lemma SameRecordsQuiet(p: Process, p': Process)
    requires SameRecords(p, p')
    requires forall c: nat :: |p.calls| <= c < |p'.calls| ==> p'.calls[c].resume
    ensures Quiet(p, p')
  {
    forall c: nat | c < |p.calls| ensures QuietCall(p.calls[c], p'.calls[c]) {
      assert SameCall(p.calls[c], p'.calls[c]);
    }
  }

  /** A record update is quiet, and so is dropping an entry. */
  lemma SetRecordQuiet(p: Process, c: nat, r: Record)
    requires IsInstalled(p, c) && RecordFollows(RecordOf(p, c), r)
    ensures Quiet(p, SetRecord(p, c, r))
  {
    var p' := SetRecord(p, c, r);
    forall d: nat | d < |p.calls| ensures QuietCall(p.calls[d], p'.calls[d]) {
      if d == c {
        assert p'.calls[c] == p.calls[c].(phase := Installed(r));
      } else {
        assert p'.calls[d] == p.calls[d];
      }
    }
  }

  lemma ForgetQuiet(p: Process, e: ExecutionId)
    ensures Quiet(p, Forget(p, e))
  {
  }

  lemma StopQuiet(p: Process, e: ExecutionId)
    ensures Quiet(p, Stop(p, e))
  {
    if Current(p, e).Some? && Current(p, e).value.status != Waiting {
      SetRecordQuiet(p, p.table[e], Current(p, e).value.(promise := Settle(Current(p, e).value.promise, Rejected)));
    }
  }

  lemma QuietTransitive(p: Process, q: Process, r: Process)
    requires Quiet(p, q) && Quiet(q, r) && |q.calls| == |p.calls|
    ensures Quiet(p, r)
  {
    forall c: nat | c < |p.calls| ensures QuietCall(p.calls[c], r.calls[c]) {
      assert QuietCall(p.calls[c], q.calls[c]) && QuietCall(q.calls[c], r.calls[c]);
      CallFollowsTransitive(p.calls[c], q.calls[c], r.calls[c]);
    }
  }

  lemma ReleaseQuiet(p: Process, mode: Mode)
    requires QueuesMatch(p)
    ensures Quiet(p, Release(p, mode))
  {
    ReleaseKeeps(p, mode);
    SameRecordsQuiet(p, Release(p, mode));
  }

  lemma HandleRecordQuiet(p: Process, c: nat)
    requires CanHandle(p, c)
    ensures Quiet(p, HandleRecord(p, c))
  {
    var r := RecordOf(p, c).(handled := true);
    var p1 := SetRecord(p, c, r);
    SetRecordQuiet(p, c, r);
    if RecordOf(p, c).status != Waiting {
      ForgetQuiet(p1, p.calls[c].execution);
      QuietTransitive(p, p1, HandleRecord(p, c));
    }
  }

  lemma HandleQuiet(p: Process, c: nat)
    requires QueuesMatch(p) && CanHandle(p, c)
    ensures Quiet(p, Handle(p, c))
  {
    HandleIsRelease(p, c);
    HandleRecordQuiet(p, c);
    SetPhaseQueues(p, c, Installed(RecordOf(p, c).(handled := true)));
    var p1 := HandleRecord(p, c);
    ReleaseQuiet(p1, p.calls[c].mode);
    QuietTransitive(p, p1, Handle(p, c));
  }
}
