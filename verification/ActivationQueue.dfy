/**
 * Retrying failed workflow activations with a growing delay
 * (`addQueuedWorkflowActivation`, packages/cli/src/active-workflow-manager.ts).
 */
module ActivationQueue {
  type WorkflowId = string

  const INITIAL_TIMEOUT: nat := 1000
  const MAX_TIMEOUT: nat := 86400000

  datatype RetryResult = Activated | Rescheduled | EntryMissing

  /** The delay after one more failure. */
  function NextTimeout(last: nat, isolateError: bool): nat {
    if !isolateError && last < MAX_TIMEOUT then
      if last * 2 <= MAX_TIMEOUT then last * 2 else MAX_TIMEOUT
    else last
  }

  /** The delay of an entry after a sequence of failed retries; each says whether it was an isolate error. */
  function DelayAfter(failures: seq<bool>): nat {
    if failures == [] then INITIAL_TIMEOUT
    else NextTimeout(DelayAfter(failures[..|failures| - 1]), failures[|failures| - 1])
  }

  class Queue {
    /** The last delay of each queued workflow. */
    var queued: map<WorkflowId, nat>

    constructor ()
      ensures queued == map[]
    {
      queued := map[];
    }

    method Add(id: WorkflowId)
      modifies this
      ensures queued == old(queued)[id := INITIAL_TIMEOUT]
    {
      Remove(id);
      queued := queued[id := INITIAL_TIMEOUT];
    }

    method Remove(id: WorkflowId)
      modifies this
      ensures queued == old(queued) - {id}
    {
      if id in queued {
        queued := queued - {id};
      }
    }

    /** What the timer's callback does once `add` has failed; the entry may be gone by then. */
    method AfterFailure(id: WorkflowId, isolateError: bool) returns (r: RetryResult)
      modifies this
      ensures r == if id in old(queued) then Rescheduled else EntryMissing
      ensures id in old(queued) ==> queued == old(queued)[id := NextTimeout(old(queued)[id], isolateError)]
      ensures id !in old(queued) ==> queued == old(queued)
    {
      if id !in queued { return EntryMissing; }
      var lastTimeout := queued[id];
      if !isolateError && lastTimeout < MAX_TIMEOUT {
        lastTimeout := if lastTimeout * 2 <= MAX_TIMEOUT then lastTimeout * 2 else MAX_TIMEOUT;
      }
      queued := queued[id := lastTimeout];
      return Rescheduled;
    }
  }

  function Pow2(n: nat): nat {
    if n == 0 then 1 else 2 * Pow2(n - 1)
  }

  function CountPlain(failures: seq<bool>): nat {
    if failures == [] then 0
    else CountPlain(failures[..|failures| - 1]) + if failures[|failures| - 1] then 0 else 1
  }

  function Capped(k: nat): nat {
    if 1000 * Pow2(k) <= 86400000 then 1000 * Pow2(k) else 86400000
  }

  /** The delay depends only on how many failures were not isolate errors: 1000 * 2^k, capped at one day. */
  lemma {:induction false} DelayIsCappedPower(failures: seq<bool>)
    ensures DelayAfter(failures) == Capped(CountPlain(failures))
    decreases |failures|
  {
    if failures != [] {
      var earlier := failures[..|failures| - 1];
      DelayIsCappedPower(earlier);
      var k := CountPlain(earlier);
      assert Pow2(k + 1) == 2 * Pow2(k);
    }
  }

  lemma {:induction false} Pow2Monotone(a: nat, b: nat)
    requires a <= b
    ensures Pow2(a) <= Pow2(b)
    decreases b
  {
    if a < b { Pow2Monotone(a, b - 1); }
  }

  /** The delay never decreases, first reaches one day after 17 plain failures, and stays there. */
  lemma DelayReachesOneDay(failures: seq<bool>, isolateError: bool)
    ensures DelayAfter(failures) <= DelayAfter(failures + [isolateError])
    ensures DelayAfter(failures) == 24 * 60 * 60 * 1000 <==> CountPlain(failures) >= 17
  {
    assert (failures + [isolateError])[..|failures|] == failures;
    DelayIsCappedPower(failures);
    var k := CountPlain(failures);
    assert Pow2(4) == 16 && Pow2(8) == 256;
    assert Pow2(12) == 4096 && Pow2(16) == 65536 && Pow2(17) == 131072;
    if k >= 17 { Pow2Monotone(17, k); } else { Pow2Monotone(k, 16); }
  }
}
