/**
 * Registering the webhooks of a workflow, with removal when one of them fails
 * (`addWebhooks`, packages/cli/src/active-workflow-manager.ts).
 */
module Webhooks {
  import opened Common

  type WorkflowId = string

  datatype Activation = Init | Create | Update | Activate | Manual | LeadershipChange

  datatype WebhookData = WebhookData(httpMethod: string, path: string, node: string, nodeWebhookId: Option<string>)

  /** The stored row, apart from its primary key. */
  datatype Row = Row(workflowId: WorkflowId, node: string, webhookId: Option<string>, pathLength: Option<nat>)

  /** Method and path. */
  type RowKey = (string, string)

  type Table = map<RowKey, Row>

  datatype Failure = QueryFailed | OtherFailure

  /**
   * How the two calls for one webhook end: both succeed, storing the row fails,
   * or the row is stored and the node's own set-up fails.
   */
  datatype Attempt = Succeeds | StoreFails(error: Failure) | SetUpFails(error: Failure)

  /** `NothingToDo` is the early `false`. */
  datatype Outcome = NothingToDo | Added | PathTaken | Threw

  function TrimSlashes(path: string): string {
    var s := if |path| > 0 && path[0] == '/' then path[1..] else path;
    if |s| > 0 && s[|s| - 1] == '/' then s[..|s| - 1] else s
  }

  predicate HasParameter(path: string) {
    (|path| > 0 && path[0] == ':') || exists i :: 0 <= i < |path| - 1 && path[i] == '/' && path[i + 1] == ':'
  }

  function SegmentCount(path: string): nat {
    if path == "" then 1 else SegmentCount(path[1..]) + if path[0] == '/' then 1 else 0
  }

  function KeyOf(w: WebhookData): RowKey {
    (w.httpMethod, TrimSlashes(w.path))
  }

  function RowOf(w: WebhookData, id: WorkflowId): Row {
    if HasParameter(w.path) && w.nodeWebhookId.Some? && w.nodeWebhookId.value != "" then
      Row(id, w.node, w.nodeWebhookId, Some(SegmentCount(TrimSlashes(w.path))))
    else
      Row(id, w.node, None, None)
  }

  /** A failed insert is expected on these, because rows survive a restart. */
  predicate Tolerant(activation: Activation) {
    activation == Init || activation == LeadershipChange
  }

  predicate Stores(a: Attempt) {
    !a.StoreFails?
  }

  predicate Aborts(a: Attempt, activation: Activation) {
    !a.Succeeds? && !(Tolerant(activation) && a.error.QueryFailed?)
  }

  /** An upsert on method and path. */
  function Upsert(t: Table, w: WebhookData, id: WorkflowId): Table {
    t[KeyOf(w) := RowOf(w, id)]
  }

  /** All rows of the workflow go. */
  function Clear(t: Table, id: WorkflowId): Table {
    map k | k in t && t[k].workflowId != id :: t[k]
  }

  /** How many webhooks the loop gets to, counting the one that aborts it. */
  function Reached(attempts: seq<Attempt>, activation: Activation): (n: nat)
    ensures n <= |attempts|
    ensures forall i :: 0 <= i < n - 1 ==> !Aborts(attempts[i], activation)
    ensures n < |attempts| ==> n > 0 && Aborts(attempts[n - 1], activation)
  {
    if attempts == [] then 0
    else if Aborts(attempts[0], activation) then 1
    else 1 + Reached(attempts[1..], activation)
  }

  /** None of the first `i` attempts aborts the call. */
  predicate NoneAborts(attempts: seq<Attempt>, activation: Activation, i: nat)
    requires i <= |attempts|
  {
    forall j :: 0 <= j < i ==> !Aborts(attempts[j], activation)
  }

  lemma AbortsAt(attempts: seq<Attempt>, activation: Activation, i: nat)
    requires i < |attempts| && NoneAborts(attempts, activation, i) && Aborts(attempts[i], activation)
    ensures Reached(attempts, activation) == i + 1 && Aborted(attempts, activation)
  {
  }

  predicate Aborted(attempts: seq<Attempt>, activation: Activation) {
    exists i :: 0 <= i < |attempts| && Aborts(attempts[i], activation)
  }

  /** The rows after the first `n` webhooks have been tried. */
  function StoredUpTo(t: Table, webhooks: seq<WebhookData>, attempts: seq<Attempt>, id: WorkflowId, n: nat): Table
    requires n <= |webhooks| == |attempts|
  {
    if n == 0 then t
    else
      var before := StoredUpTo(t, webhooks, attempts, id, n - 1);
      if Stores(attempts[n - 1]) then Upsert(before, webhooks[n - 1], id) else before
  }

  /** What is in the table after a call. */
  function RowsAfter(t: Table, webhooks: seq<WebhookData>, attempts: seq<Attempt>, id: WorkflowId,
                     activation: Activation, clearSucceeds: bool): Table
    requires |webhooks| == |attempts|
  {
    var stored := StoredUpTo(t, webhooks, attempts, id, Reached(attempts, activation));
    if Aborted(attempts, activation) && clearSucceeds then Clear(stored, id) else stored
  }

  lemma RowsWhenAborted(t: Table, webhooks: seq<WebhookData>, attempts: seq<Attempt>, id: WorkflowId,
                        activation: Activation, clearSucceeds: bool, i: nat)
    requires i < |webhooks| == |attempts| && NoneAborts(attempts, activation, i) && Aborts(attempts[i], activation)
    ensures Reached(attempts, activation) == i + 1 && Aborted(attempts, activation)
    ensures
      var stored := StoredUpTo(t, webhooks, attempts, id, i + 1);
      RowsAfter(t, webhooks, attempts, id, activation, clearSucceeds) == if clearSucceeds then Clear(stored, id) else stored
  {
    AbortsAt(attempts, activation, i);
  }

  class WebhookStore {
    var rows: Table

    constructor (rows: Table)
      ensures this.rows == rows
    {
      this.rows := rows;
    }

    /** The rows of the workflow are removed, if that works, and the error is passed on. */
    method Fail(error: Failure, id: WorkflowId, clearSucceeds: bool) returns (outcome: Outcome)
      modifies this
      ensures rows == if clearSucceeds then Clear(old(rows), id) else old(rows)
      ensures outcome == if error.QueryFailed? then PathTaken else Threw
    {
      if clearSucceeds { rows := Clear(rows, id); }
      outcome := if error.QueryFailed? then PathTaken else Threw;
    }

    /** `clearSucceeds` says whether the removal after a failure gets through; its own error is only reported. */
    method AddWebhooks(webhooks: seq<WebhookData>, attempts: seq<Attempt>, id: WorkflowId, activation: Activation,
                       clearSucceeds: bool)
      returns (outcome: Outcome)
      requires |webhooks| == |attempts|
      modifies this
      ensures outcome == NothingToDo <==> webhooks == []
      ensures outcome == Added <==> webhooks != [] && !Aborted(attempts, activation)
      ensures outcome == PathTaken ==> attempts[Reached(attempts, activation) - 1].error.QueryFailed?
      ensures outcome == Threw ==> attempts[Reached(attempts, activation) - 1].error.OtherFailure?
      ensures rows == RowsAfter(old(rows), webhooks, attempts, id, activation, clearSucceeds)
    {
      if |webhooks| == 0 { return NothingToDo; }
      for i := 0 to |webhooks|
        invariant NoneAborts(attempts, activation, i)
        invariant rows == StoredUpTo(old(rows), webhooks, attempts, id, i)
      {
        var attempt := attempts[i];
        if Stores(attempt) {
          rows := Upsert(rows, webhooks[i], id);
        }
        if !attempt.Succeeds? {
          if Tolerant(activation) && attempt.error.QueryFailed? { continue; }
          RowsWhenAborted(old(rows), webhooks, attempts, id, activation, clearSucceeds, i);
          outcome := Fail(attempt.error, id, clearSucceeds);
          return;
        }
      }
      ReachedAll(attempts, activation);
      return Added;
    }
  }

  // ---------------------------------------------------------------------
  // All or nothing
  // ---------------------------------------------------------------------

  predicate HasRows(t: Table, id: WorkflowId) {
    exists k :: k in t && t[k].workflowId == id
  }

  /** A webhook among the first `n` whose row was written under this key. */
  predicate Wrote(webhooks: seq<WebhookData>, attempts: seq<Attempt>, n: nat, k: RowKey)
    requires n <= |webhooks| == |attempts|
  {
    exists i :: 0 <= i < n && Stores(attempts[i]) && KeyOf(webhooks[i]) == k
  }

  lemma WroteStep(webhooks: seq<WebhookData>, attempts: seq<Attempt>, n: nat, k: RowKey)
    requires 0 < n <= |webhooks| == |attempts|
    ensures Wrote(webhooks, attempts, n, k)
       <==> Wrote(webhooks, attempts, n - 1, k) || (Stores(attempts[n - 1]) && KeyOf(webhooks[n - 1]) == k)
  {
  }

  /** Keys that were written hold a row of this workflow; every other key is as before. */
  lemma {:induction false} StoredRows(t: Table, webhooks: seq<WebhookData>, attempts: seq<Attempt>, id: WorkflowId,
                                      n: nat, k: RowKey)
    requires n <= |webhooks| == |attempts|
    ensures
      var stored := StoredUpTo(t, webhooks, attempts, id, n);
      && (Wrote(webhooks, attempts, n, k) ==> k in stored && stored[k].workflowId == id)
      && (!Wrote(webhooks, attempts, n, k) ==> Lookup(stored, k) == Lookup(t, k))
  {
    if n > 0 {
      StoredRows(t, webhooks, attempts, id, n - 1, k);
      WroteStep(webhooks, attempts, n, k);
    }
  }

  /** The last webhook with a key decides the row. */
  lemma {:induction false} LastWriterWins(t: Table, webhooks: seq<WebhookData>, attempts: seq<Attempt>,
                                          id: WorkflowId, n: nat, i: nat)
    requires i < n <= |webhooks| == |attempts| && Stores(attempts[i])
    requires forall j :: i < j < n && Stores(attempts[j]) ==> KeyOf(webhooks[j]) != KeyOf(webhooks[i])
    ensures Lookup(StoredUpTo(t, webhooks, attempts, id, n), KeyOf(webhooks[i])) == Some(RowOf(webhooks[i], id))
  {
    if i < n - 1 { LastWriterWins(t, webhooks, attempts, id, n - 1, i); }
  }

  lemma ReachedAll(attempts: seq<Attempt>, activation: Activation)
    requires !Aborted(attempts, activation)
    ensures Reached(attempts, activation) == |attempts|
  {
  }

  /**
   * Outside start-up, with a removal that gets through: either every webhook has a row of this workflow,
   * or the workflow has no row at all.
   */
  lemma AllOrNothing(t: Table, webhooks: seq<WebhookData>, attempts: seq<Attempt>, id: WorkflowId, activation: Activation)
    requires |webhooks| == |attempts| && !Tolerant(activation)
    ensures
      var after := RowsAfter(t, webhooks, attempts, id, activation, true);
      && (!Aborted(attempts, activation) ==>
           forall i :: 0 <= i < |webhooks| ==> KeyOf(webhooks[i]) in after && after[KeyOf(webhooks[i])].workflowId == id)
      && (Aborted(attempts, activation) ==> !HasRows(after, id))
  {
    if !Aborted(attempts, activation) {
      ReachedAll(attempts, activation);
      forall i | 0 <= i < |webhooks|
        ensures
          var after := RowsAfter(t, webhooks, attempts, id, activation, true);
          KeyOf(webhooks[i]) in after && after[KeyOf(webhooks[i])].workflowId == id
      {
        assert !Aborts(attempts[i], activation) && Stores(attempts[i]);
        StoredRows(t, webhooks, attempts, id, |webhooks|, KeyOf(webhooks[i]));
      }
    }
  }

  /**
   * When the removal itself fails, an aborted call leaves nothing behind exactly when the workflow
   * had no rows before and no row was written.
   */
  lemma FailedRemovalLeavesNothingExactlyWhen(t: Table, webhooks: seq<WebhookData>, attempts: seq<Attempt>,
                                              id: WorkflowId, activation: Activation)
    requires |webhooks| == |attempts| && Aborted(attempts, activation)
    ensures !HasRows(RowsAfter(t, webhooks, attempts, id, activation, false), id)
       <==> && !HasRows(t, id)
            && forall i :: 0 <= i < Reached(attempts, activation) ==> !Stores(attempts[i])
  {
    var n := Reached(attempts, activation);
    var after := RowsAfter(t, webhooks, attempts, id, activation, false);
    forall k ensures
      && (Wrote(webhooks, attempts, n, k) ==> k in after && after[k].workflowId == id)
      && (!Wrote(webhooks, attempts, n, k) ==> Lookup(after, k) == Lookup(t, k))
    {
      StoredRows(t, webhooks, attempts, id, n, k);
    }
    if i :| 0 <= i < n && Stores(attempts[i]) {
      var k := KeyOf(webhooks[i]);
      assert Wrote(webhooks, attempts, n, k);
      assert k in after && after[k].workflowId == id;
    } else if k :| k in t && t[k].workflowId == id {
      assert !Wrote(webhooks, attempts, n, k);
      assert Lookup(after, k) == Lookup(t, k);
    } else {
      assert forall k :: k in after ==> Lookup(after, k) == Lookup(t, k);
    }
  }

  // ---------------------------------------------------------------------
  // Rows of other workflows
  // ---------------------------------------------------------------------

  predicate OthersUntouched(t: Table, after: Table, id: WorkflowId) {
    forall k :: k in t && t[k].workflowId != id ==> Lookup(after, k) == Some(t[k])
  }

  /**
   * Rows of other workflows are untouched exactly when no webhook that was written collides with one of them:
   * the upsert replaces the row whoever owns it, and the removal then deletes it.
   */
  lemma OthersAreUntouchedExactlyWhen(t: Table, webhooks: seq<WebhookData>, attempts: seq<Attempt>, id: WorkflowId,
                                      activation: Activation, clearSucceeds: bool)
    requires |webhooks| == |attempts|
    ensures OthersUntouched(t, RowsAfter(t, webhooks, attempts, id, activation, clearSucceeds), id)
       <==> forall i :: 0 <= i < Reached(attempts, activation) && Stores(attempts[i]) ==>
              KeyOf(webhooks[i]) !in t || t[KeyOf(webhooks[i])].workflowId == id
  {
    var n := Reached(attempts, activation);
    var after := RowsAfter(t, webhooks, attempts, id, activation, clearSucceeds);
    if i :| 0 <= i < n && Stores(attempts[i]) && KeyOf(webhooks[i]) in t && t[KeyOf(webhooks[i])].workflowId != id {
      var k := KeyOf(webhooks[i]);
      StoredRows(t, webhooks, attempts, id, n, k);
      assert Wrote(webhooks, attempts, n, k);
      assert Lookup(after, k) != Some(t[k]);
    } else {
      forall k | k in t && t[k].workflowId != id ensures Lookup(after, k) == Some(t[k]) {
        StoredRows(t, webhooks, attempts, id, n, k);
      }
    }
  }

  /** A second workflow that fails after claiming a path takes the first workflow's row with it. */
  lemma TakenPathIsLost(a: WorkflowId, b: WorkflowId, w: WebhookData)
    requires a != b
    ensures
      var t: Table := map[KeyOf(w) := RowOf(w, a)];
      && RowsAfter(t, [w], [Succeeds], b, Activate, true) == map[KeyOf(w) := RowOf(w, b)]
      && RowsAfter(t, [w], [SetUpFails(OtherFailure)], b, Activate, true) == map[]
  {
    var t: Table := map[KeyOf(w) := RowOf(w, a)];
    var ok, bad := [Succeeds], [SetUpFails(OtherFailure)];
    assert ok[1..] == [] && Reached(ok, Activate) == 1;
    assert Aborts(bad[0], Activate) && Reached(bad, Activate) == 1;
    assert StoredUpTo(t, [w], ok, b, 1) == Upsert(t, w, b);
    assert StoredUpTo(t, [w], bad, b, 1) == Upsert(t, w, b);
  }

  // ---------------------------------------------------------------------
  // The row by the characters of the path
  // ---------------------------------------------------------------------

  /** At most one slash is cut off in front and one behind; a single slash leaves the empty path. */
  lemma StoredPath(w: WebhookData)
    ensures
      var stored, n := KeyOf(w).1, |w.path|;
      var front := if n > 0 && w.path[0] == '/' then 1 else 0;
      var back := if n > front && w.path[n - 1] == '/' then 1 else 0;
      && KeyOf(w).0 == w.httpMethod
      && |stored| == n - front - back && forall i :: 0 <= i < |stored| ==> stored[i] == w.path[i + front]
  {
  }

  lemma {:induction false} SegmentsAreSlashesPlusOne(path: string)
    ensures SegmentCount(path) == multiset(path)['/'] + 1
    decreases |path|
  {
    if path != "" {
      SegmentsAreSlashesPlusOne(path[1..]);
      assert path == [path[0]] + path[1..];
    }
  }

  /**
   * The row has the node's webhook id, and one segment more than the stored path has slashes, exactly when the path has a
   * segment that starts with a colon and the node has an id that is not empty.
   */
  lemma StoredRow(w: WebhookData, id: WorkflowId)
    ensures
      var row := RowOf(w, id);
      var hasId := w.nodeWebhookId.Some? && w.nodeWebhookId.value != "";
      var dynamic := exists i :: 0 <= i < |w.path| && w.path[i] == ':' && (i == 0 || w.path[i - 1] == '/');
      && row.workflowId == id && row.node == w.node
      && (row.webhookId.Some? <==> dynamic && hasId) && (row.pathLength.Some? <==> dynamic && hasId)
      && (row.webhookId.Some? ==> row.webhookId == w.nodeWebhookId)
      && (row.pathLength.Some? ==> row.pathLength.value == multiset(KeyOf(w).1)['/'] + 1)
  {
    SegmentsAreSlashesPlusOne(KeyOf(w).1);
    if i :| 0 < i < |w.path| && w.path[i] == ':' && w.path[i - 1] == '/' { assert HasParameter(w.path); }
    if i :| 0 <= i < |w.path| - 1 && w.path[i] == '/' && w.path[i + 1] == ':' {
      assert w.path[i + 1] == ':' && w.path[i + 1 - 1] == '/';
    }
  }

  /** A failure aborts the call unless it is a failed query while starting up or after a change of leader. */
  lemma AbortedExactlyWhen(attempts: seq<Attempt>, activation: Activation)
    ensures Aborted(attempts, activation) <==>
      exists i :: 0 <= i < |attempts| &&
        match attempts[i]
        case Succeeds => false
        case StoreFails(error) => error == OtherFailure || activation !in {Init, LeadershipChange}
        case SetUpFails(error) => error == OtherFailure || activation !in {Init, LeadershipChange}
  {
    forall i | 0 <= i < |attempts|
      ensures Aborts(attempts[i], activation) <==>
        match attempts[i]
        case Succeeds => false
        case StoreFails(error) => error == OtherFailure || activation !in {Init, LeadershipChange}
        case SetUpFails(error) => error == OtherFailure || activation !in {Init, LeadershipChange}
    {
    }
  }

  /** A row is there when storing it succeeded, whatever became of the node's set-up, and is as before when storing failed. */
  lemma RowIsWrittenExactlyWhenStored(t: Table, w: WebhookData, id: WorkflowId, activation: Activation)
    requires activation in {Init, LeadershipChange}
    ensures RowsAfter(t, [w], [Succeeds], id, activation, true) == t[KeyOf(w) := RowOf(w, id)]
    ensures RowsAfter(t, [w], [SetUpFails(QueryFailed)], id, activation, true) == t[KeyOf(w) := RowOf(w, id)]
    ensures RowsAfter(t, [w], [StoreFails(QueryFailed)], id, activation, true) == t
  {
    forall a | a in {Succeeds, SetUpFails(QueryFailed), StoreFails(QueryFailed)}
      ensures RowsAfter(t, [w], [a], id, activation, true) == if a.StoreFails? then t else t[KeyOf(w) := RowOf(w, id)]
    {
      assert !Aborts([a][0], activation) && [a][1..] == [] && Reached([a], activation) == 1;
      assert StoredUpTo(t, [w], [a], id, 0) == t;
    }
  }
}
