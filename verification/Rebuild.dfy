// projection/rebuild.py: re-enqueue the current snapshot and label rows of one task.
module Rebuild {
  import opened Common
  import opened Idempotency
  import opened Outbox

  // The columns of a task and of its latest plan that a rebuild reads.
  datatype View = View(taskId: string, sourceIssue: Option<string>, state: TaskState, rev: nat, critical: bool,
      planRev: Option<nat>)
  {
    function Target(): string { IssueTarget(taskId, sourceIssue) }

    function SnapshotLane(): Lane { Lane(taskId, TaskSnapshot, Target()) }
  }

  datatype Request = Request(view: View, force: bool, now: int, origin: string, baseUrl: string)

  function SnapshotDraft(q: Request): Draft {
    var v := q.view;
    var body := SnapshotPayload(v.state, v.rev, v.planRev, v.critical, TaskUrl(q.baseUrl, v.taskId, v.sourceIssue));
    Draft(v.SnapshotLane(), q.origin, Snapshot(body), v.rev, SnapshotKey(v.taskId, v.Target(), v.rev, body), q.now)
  }

  function LabelDraft(q: Request): Draft {
    var v := q.view;
    var desired := DesiredLabels(v.state, v.critical);
    Draft(Lane(v.taskId, TaskLabelSync, v.Target()), q.origin, Labels(desired), v.rev,
        LabelKey(v.taskId, v.Target(), v.rev, desired), q.now)
  }

  // DELETE FROM projection_outbox WHERE task_id = ? AND sent_at IS NULL
  function DropUnsent(t: Table, taskId: string): Table {
    t.(rows := map id | id in t.rows && !(t.rows[id].lane.taskId == taskId && t.rows[id].sent.None?) :: t.rows[id])
  }

  function Base(t: Table, q: Request): Table {
    if q.force then DropUnsent(t, q.view.taskId) else t
  }

  // rebuild_for_task on a task that exists
  function Rebuilt(t: Table, q: Request): Table {
    Insert(Insert(Base(t, q), SnapshotDraft(q)), LabelDraft(q))
  }

  // Rows an insert adds: 0 when the key is present already.
  function Added(t: Table, d: Draft): nat {
    if Conflicting(t, d) == {} then 1 else 0
  }

  method RebuildForTask(db: OutboxDb, task: Option<View>, force: bool, now: int, origin: string, baseUrl: string)
    returns (r: Result<nat, string>)
    modifies db`rows, db`nextId
    ensures r.Err? <==> task.None?
    ensures r.Err? ==> db.Contents() == old(db.Contents())
    ensures r.Ok? ==>
              var q := Request(task.value, force, now, origin, baseUrl);
              db.Contents() == Rebuilt(old(db.Contents()), q)
              && r.value == db.nextId - old(db.nextId)
  {
    if task.None? {
      return Err("task not found");
    }
    var q := Request(task.value, force, now, origin, baseUrl);
    var inserted := 0;
    if force {
      db.rows := DropUnsent(db.Contents(), q.view.taskId).rows;
    }
    inserted := inserted + Added(db.Contents(), SnapshotDraft(q));
    var _ := db.InsertOutbox(SnapshotDraft(q));
    inserted := inserted + Added(db.Contents(), LabelDraft(q));
    var _ := db.InsertOutbox(LabelDraft(q));
    r := Ok(inserted);
  }

  lemma BaseKeepsTableOk(t: Table, q: Request)
    requires TableOk(t)
    ensures TableOk(Base(t, q))
  {
    var b := Base(t, q);
    forall i, j | KeyRivals(b, i, j) ensures i == j { assert KeyRivals(t, i, j); }
    forall i, j | LaneRivals(b, i, j) ensures i == j { assert LaneRivals(t, i, j); }
    forall id ensures RowOk(b, id) { assert RowOk(t, id); }
  }

  // A rebuild leaves exactly one row for the current snapshot key and one for the label key.
  lemma OneRowPerCurrentKey(t: Table, q: Request)
    requires TableOk(t)
    ensures TableOk(Rebuilt(t, q))
    ensures exists id :: Conflicting(Rebuilt(t, q), SnapshotDraft(q)) == {id}
    ensures exists id :: Conflicting(Rebuilt(t, q), LabelDraft(q)) == {id}
  {
    BaseKeepsTableOk(t, q);
    var b := Base(t, q);
    var s := Insert(b, SnapshotDraft(q));
    InsertKeepsTableOk(b, SnapshotDraft(q));
    InsertKeepsTableOk(s, LabelDraft(q));
    var r := Insert(s, LabelDraft(q));
    assert Conflicting(r, SnapshotDraft(q)) == Conflicting(s, SnapshotDraft(q)) by {
      assert forall id :: id in r.rows && id !in s.rows ==> r.rows[id].lane.stream == TaskLabelSync;
    }
  }

  // Inserting into one stream does not move the key lookups of another.
  lemma OtherStreamUnmoved(t: Table, d: Draft, e: Draft)
    requires TableOk(t) && d.lane.stream != e.lane.stream
    ensures Conflicting(Insert(t, d), e) == Conflicting(t, e)
  {
    var r := Insert(t, d);
    forall id ensures id in Conflicting(r, e) <==> id in Conflicting(t, e) {
      assert RowOk(t, id);
    }
  }

  // The row shows the view's task as it is, or its labels, and may be sent at once.
  predicate ShowsView(row: Row, q: Request) {
    var v := q.view;
    var hasIssue := v.sourceIssue.Some? && v.sourceIssue.value != "";
    var url := q.baseUrl + if hasIssue then "/issues/" + v.sourceIssue.value else "/tasks/" + v.taskId;
    && row.lane.taskId == v.taskId && row.lane.target == (if hasIssue then v.sourceIssue.value else v.taskId)
    && row.rev == v.rev && row.origin == q.origin && row.due == q.now
    && row.claim == None && row.attempts == 0 && row.sent == None
    && (if row.lane.stream == TaskSnapshot then
          row.payload == Snapshot(SnapshotPayload(v.state, v.rev, v.planRev, v.critical, url))
        else
          && row.lane.stream == TaskLabelSync && row.payload.Labels?
          && (CriticalLabel in row.payload.desired <==> v.critical)
          && (HumanReviewLabel in row.payload.desired <==> v.state == HumanReviewRequired)
          && (CancelledLabel in row.payload.desired <==> v.state == Cancelled))
  }

  lemma DraftsShowView(q: Request)
    ensures ShowsView(FreshRow(SnapshotDraft(q)), q) && ShowsView(FreshRow(LabelDraft(q)), q)
  {
  }

  // Every row that a rebuild adds shows the view.
  lemma RebuiltRow(t: Table, q: Request, id: nat)
    requires TableOk(t) && id in Rebuilt(t, q).rows && id !in t.rows
    ensures ShowsView(Rebuilt(t, q).rows[id], q)
  {
    DraftsShowView(q);
    BaseKeepsTableOk(t, q);
    InsertKeepsTableOk(Base(t, q), SnapshotDraft(q));
  }

  // Without force no existing row changes; with force no sent row and no other task's row does.
  lemma RowSurvives(t: Table, q: Request, id: nat)
    requires TableOk(t) && id in t.rows
    requires q.force ==> t.rows[id].sent.Some? || t.rows[id].lane.taskId != q.view.taskId
    ensures id in Rebuilt(t, q).rows && Rebuilt(t, q).rows[id] == t.rows[id]
  {
    BaseKeepsTableOk(t, q);
    var b := Base(t, q);
    assert id in b.rows && b.rows[id] == t.rows[id];
    InsertKeepsTableOk(b, SnapshotDraft(q));
    InsertKeepsTableOk(Insert(b, SnapshotDraft(q)), LabelDraft(q));
  }

  // After a forced rebuild the only unsent rows of the task are fresh ones for the current keys.
  lemma ForcedLeavesOnlyCurrent(t: Table, q: Request, id: nat)
    requires TableOk(t) && q.force
    requires id in Rebuilt(t, q).rows && Rebuilt(t, q).rows[id].lane.taskId == q.view.taskId
        && Rebuilt(t, q).rows[id].sent.None?
    ensures id >= t.nextId
    ensures Rebuilt(t, q).rows[id] == FreshRow(SnapshotDraft(q)) || Rebuilt(t, q).rows[id] == FreshRow(LabelDraft(q))
  {
    var b := Base(t, q);
    var s := Insert(b, SnapshotDraft(q));
    assert RowOk(t, id);
    assert id !in b.rows;
    assert id in s.rows ==> id == t.nextId;
  }

  // A second plain rebuild of the same task, at any later time, inserts nothing.
  lemma SecondRebuildInsertsNothing(t: Table, q: Request, q2: Request)
    requires TableOk(t)
    requires q2.view == q.view && q2.baseUrl == q.baseUrl && !q2.force
    ensures Rebuilt(Rebuilt(t, q), q2) == Rebuilt(t, q)
  {
    OneRowPerCurrentKey(t, q);
    var r := Rebuilt(t, q);
    assert Conflicting(r, SnapshotDraft(q2)) == Conflicting(r, SnapshotDraft(q));
    assert Conflicting(r, LabelDraft(q2)) == Conflicting(r, LabelDraft(q));
  }

  // A second forced rebuild inserts nothing exactly when both current rows have been sent.
  lemma SecondForcedRebuild(t: Table, q: Request, q2: Request, snap: nat, labels: nat)
    requires TableOk(t)
    requires q2.view == q.view && q2.baseUrl == q.baseUrl && q2.force
    requires Conflicting(Rebuilt(t, q), SnapshotDraft(q)) == {snap}
    requires Conflicting(Rebuilt(t, q), LabelDraft(q)) == {labels}
    ensures snap in Rebuilt(t, q).rows && labels in Rebuilt(t, q).rows
    ensures Rebuilt(Rebuilt(t, q), q2).nextId == Rebuilt(t, q).nextId
            <==> Rebuilt(t, q).rows[snap].sent.Some? && Rebuilt(t, q).rows[labels].sent.Some?
  {
    OneRowPerCurrentKey(t, q);
    var r := Rebuilt(t, q);
    var b := Base(r, q2);
    BaseKeepsTableOk(r, q2);
    assert snap in Conflicting(r, SnapshotDraft(q)) && labels in Conflicting(r, LabelDraft(q));
    StillPresent(r, q2, SnapshotDraft(q), SnapshotDraft(q2), snap);
    StillPresent(r, q2, LabelDraft(q), LabelDraft(q2), labels);
    OtherStreamUnmoved(b, SnapshotDraft(q2), LabelDraft(q2));
  }

  lemma StillPresent(r: Table, q: Request, d: Draft, d2: Draft, id: nat)
    requires q.force && d2.lane == d.lane && d2.key == d.key && d.lane.taskId == q.view.taskId
    requires d.key.taskId == q.view.taskId
    requires TableOk(r) && Conflicting(r, d) == {id}
    ensures id in r.rows
    ensures Added(Base(r, q), d2) == 0 <==> r.rows[id].sent.Some?
  {
    assert id in Conflicting(r, d);
    var b := Base(r, q);
    assert Conflicting(b, d2) <= Conflicting(r, d);
    assert RowOk(r, id);
    assert r.rows[id].lane.taskId == q.view.taskId;
    assert id in Conflicting(b, d2) <==> r.rows[id].sent.Some?;
  }
}
