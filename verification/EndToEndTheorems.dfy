// What the issues show after joint runs of the router and the projection workers.
module EndToEndTheorems {
  import opened Common
  import Ev = Events
  import I = Idempotency
  import O = Outbox
  import R = Rebuild
  import D = Delivery
  import DT = DeliveryTheorems
  import LL = LabelLanes
  import RR = RouterRuns
  import RT = RouterTheorems
  import opened EndToEnd

  // ---- forced rebuilds

  // The snapshot rows of a task are all in the lane of its view.
  lemma OneSnapshotLane(j: Joint, q: R.Request, id: nat)
    requires JointOk(j) && RR.ViewSound(j.run.db, q.view) && id in j.world.table.rows
    ensures var lane := j.world.table.rows[id].lane;
            lane.stream == I.TaskSnapshot && lane.taskId == q.view.taskId ==>
              lane == q.view.SnapshotLane() && j.world.table.rows[id].rev <= j.run.db.tasks[q.view.taskId].rev
  {
    assert RR.RowSound(j.run.db, id) && RR.TaskSound(j.run.db, q.view.taskId);
  }

  // A forced rebuild that comes to its transaction with a stored view: the delivery protocol is
  // ready for it exactly when no row of the task is being sent and the issue shows the cursor's
  // row or the view is above the cursor. A view that no event has outdated always is.
  lemma RebuildIsReady(cfg: D.Config, st: Ev.Settings, acts: seq<Act>, m: RR.Move)
    requires RR.Rebuilds(Reached(cfg, st, acts).run, m) && m.force
    ensures var j := Reached(cfg, st, acts);
            var q := RR.RebuildRequest(st, j.run, m);
            var lane := q.view.SnapshotLane();
            && (D.RebuildReady(j.world, q) <==>
                 D.TaskIdle(j.world.table, q.view.taskId) && (D.Alone(j.world, lane) ==> D.LaneReady(j.world, q, lane)))
            && q.view.taskId in j.run.db.tasks
            && (q.view.rev == j.run.db.tasks[q.view.taskId].rev ==>
                 (D.RebuildReady(j.world, q) <==> D.TaskIdle(j.world.table, q.view.taskId)))
  {
    ReachedOk(cfg, st, acts);
    var j := Reached(cfg, st, acts);
    var q := RR.RebuildRequest(st, j.run, m);
    assert RT.ReadingOk(j.run, m.op);
    forall lane: O.Lane | lane.stream == I.TaskSnapshot && lane.taskId == q.view.taskId && D.Alone(j.world, lane)
      ensures lane != q.view.SnapshotLane() ==> D.LaneReady(j.world, q, lane)
      ensures q.view.rev == j.run.db.tasks[q.view.taskId].rev ==> D.LaneReady(j.world, q, lane)
    {
      assert D.LaneOk(j.world, lane);
      if id :| D.Outstanding(j.world.table, lane, id) { OneSnapshotLane(j, q, id); }
    }
  }

  // ---- what was written is not forgotten

  ghost predicate Floor(t: O.Table, lane: O.Lane, rev: nat) {
    exists id :: AtLeast(t, lane, rev, id)
  }

  predicate AtLeast(t: O.Table, lane: O.Lane, rev: nat, id: nat) {
    id in t.rows && t.rows[id].lane == lane && t.rows[id].rev >= rev
  }

  // No snapshot that a forced rebuild deletes is newer than both its view and every sent one.
  ghost predicate DropsNothingNewer(t: O.Table, q: R.Request) {
    q.force ==> forall id :: NewerUnsent(t, q, id) ==> exists s :: Covers(t, id, s)
  }

  predicate NewerUnsent(t: O.Table, q: R.Request, id: nat) {
    id in t.rows && t.rows[id].lane == q.view.SnapshotLane() && t.rows[id].sent.None? && t.rows[id].rev > q.view.rev
  }

  predicate Covers(t: O.Table, id: nat, s: nat) {
    id in t.rows && s in t.rows && t.rows[s].lane == t.rows[id].lane && t.rows[s].sent.Some?
        && t.rows[s].rev >= t.rows[id].rev
  }

  lemma RebuildKeepsFloor(t: O.Table, q: R.Request, rev: nat)
    requires O.TableOk(t) && DropsNothingNewer(t, q) && Floor(t, q.view.SnapshotLane(), rev)
    ensures Floor(R.Rebuilt(t, q), q.view.SnapshotLane(), rev)
  {
    var t', lane := R.Rebuilt(t, q), q.view.SnapshotLane();
    var id :| AtLeast(t, lane, rev, id);
    if !q.force || t.rows[id].sent.Some? {
      R.RowSurvives(t, q, id);
      assert AtLeast(t', lane, rev, id);
    } else if NewerUnsent(t, q, id) {
      var s :| Covers(t, id, s);
      R.RowSurvives(t, q, s);
      assert AtLeast(t', lane, rev, s);
    } else {
      R.OneRowPerCurrentKey(t, q);
      var cur :| O.Conflicting(t', R.SnapshotDraft(q)) == {cur};
      assert cur in O.Conflicting(t', R.SnapshotDraft(q));
      assert O.RowOk(t', cur);
      assert AtLeast(t', lane, rev, cur);
    }
  }

  // The highest revision in the lane of the view survives a rebuild exactly under that condition.
  lemma RebuildKeepsNewest(t: O.Table, q: R.Request)
    requires O.TableOk(t)
    ensures var lane := q.view.SnapshotLane();
            (forall rev :: Floor(t, lane, rev) ==> Floor(R.Rebuilt(t, q), lane, rev)) <==> DropsNothingNewer(t, q)
  {
    var t', lane := R.Rebuilt(t, q), q.view.SnapshotLane();
    if DropsNothingNewer(t, q) {
      forall rev | Floor(t, lane, rev) ensures Floor(t', lane, rev) { RebuildKeepsFloor(t, q, rev); }
    } else {
      var id :| NewerUnsent(t, q, id) && forall s :: !Covers(t, id, s);
      var rev := t.rows[id].rev;
      assert AtLeast(t, lane, rev, id) && Floor(t, lane, rev);
      if x :| AtLeast(t', lane, rev, x) {
        if t'.rows[x].sent.None? { R.ForcedLeavesOnlyCurrent(t, q, x); }
        RT.RebuiltRow(t, q, x);
        assert Covers(t, id, x);
      }
    }
  }

  // A view that no event has outdated meets the condition.
  lemma CurrentViewDropsNothingNewer(j: Joint, q: R.Request)
    requires JointOk(j) && RR.ViewSound(j.run.db, q.view) && q.view.rev == j.run.db.tasks[q.view.taskId].rev
    ensures DropsNothingNewer(j.world.table, q)
  {
    forall id ensures !NewerUnsent(j.world.table, q, id) {
      if id in j.world.table.rows { OneSnapshotLane(j, q, id); }
    }
  }

  // Every rebuild for the lane meets the condition at its transaction.
  ghost predicate Mindful(st: Ev.Settings, j: Joint, a: Act, lane: O.Lane) {
    a.Routes? && RR.Rebuilds(j.run, a.move) ==>
      var q := RR.RebuildRequest(st, j.run, a.move);
      q.view.SnapshotLane() == lane ==> DropsNothingNewer(j.world.table, q)
  }

  ghost predicate MindfulPlay(cfg: D.Config, st: Ev.Settings, j: Joint, acts: seq<Act>, lane: O.Lane)
    decreases |acts|
  {
    acts == [] || (Mindful(st, j, acts[0], lane) && MindfulPlay(cfg, st, Apply(cfg, st, j, acts[0]), acts[1..], lane))
  }

  lemma RebuildActKeepsFloor(st: Ev.Settings, j: Joint, m: RR.Move, lane: O.Lane, rev: nat)
    requires JointOk(j) && lane.stream == I.TaskSnapshot && Floor(j.world.table, lane, rev)
    requires RR.Rebuilds(j.run, m) && Mindful(st, j, Routes(m), lane)
    ensures Floor(R.Rebuilt(j.world.table, RR.RebuildRequest(st, j.run, m)), lane, rev)
  {
    var q := RR.RebuildRequest(st, j.run, m);
    var id :| AtLeast(j.world.table, lane, rev, id);
    assert RT.ReadingOk(j.run, m.op);
    if lane == q.view.SnapshotLane() {
      RebuildKeepsFloor(j.world.table, q, rev);
    } else {
      OneSnapshotLane(j, q, id);
      R.RowSurvives(j.world.table, q, id);
      assert AtLeast(R.Rebuilt(j.world.table, q), lane, rev, id);
    }
  }

  lemma ActKeepsFloor(cfg: D.Config, st: Ev.Settings, j: Joint, a: Act, lane: O.Lane, rev: nat)
    requires JointOk(j) && lane.stream == I.TaskSnapshot && Floor(j.world.table, lane, rev) && Mindful(st, j, a, lane)
    ensures Floor(Apply(cfg, st, j, a).world.table, lane, rev)
  {
    var id :| AtLeast(j.world.table, lane, rev, id);
    if Enabled(st, j, a) {
      match a
      case Works(s) =>
        StepDelivers(cfg, j.world, s);
        assert AtLeast(D.Apply(cfg, j.world, s).table, lane, rev, id);
      case Routes(m) =>
        if RR.Rebuilds(j.run, m) {
          RebuildActKeepsFloor(st, j, m, lane, rev);
        } else {
          RouteActKeepsRow(st, j, m, id);
          assert AtLeast(RR.Apply(st, j.run, m).db.outbox, lane, rev, id);
        }
    }
  }

  lemma RouteActKeepsRow(st: Ev.Settings, j: Joint, m: RR.Move, id: nat)
    requires JointOk(j) && !m.Deliver? && !RR.Rebuilds(j.run, m) && id in j.world.table.rows
    ensures var t' := RR.Apply(st, j.run, m).db.outbox; id in t'.rows && t'.rows[id] == j.world.table.rows[id]
  {
    if m.RouteNext? && m.eventId in j.run.db.inbox && !j.run.db.inbox[m.eventId].processed {
      RT.OutboxOnlyGrows(j.run.db, st, j.run.db.inbox[m.eventId].event, id);
    }
  }

  lemma {:induction false} PlayKeepsFloor(cfg: D.Config, st: Ev.Settings, j: Joint, acts: seq<Act>, lane: O.Lane,
      rev: nat)
    requires JointOk(j) && lane.stream == I.TaskSnapshot && Floor(j.world.table, lane, rev)
    requires MindfulPlay(cfg, st, j, acts, lane)
    ensures Floor(Play(cfg, st, j, acts).world.table, lane, rev)
    decreases |acts|
  {
    if acts != [] {
      ActKeeps(cfg, st, j, acts[0]);
      ActKeepsFloor(cfg, st, j, acts[0], lane, rev);
      PlayKeepsFloor(cfg, st, Apply(cfg, st, j, acts[0]), acts[1..], lane, rev);
    }
  }

  // ---- issue bodies

  // What a drained issue of one task shows: the row that the cursor names, with the highest revision of its lane.
  lemma DrainedShows(j: Joint, lane: O.Lane, rev: nat)
    requires JointOk(j) && lane.stream == I.TaskSnapshot && D.Alone(j.world, lane)
    requires DT.AllSent(j.world.table, lane) && Floor(j.world.table, lane, rev)
    ensures var w := j.world;
            && lane in w.table.cursors && D.ShowsRow(w, lane, w.table.cursors[lane].outboxId)
            && w.remote.body[lane.target].rev >= rev && w.remote.body[lane.target].rev == w.table.cursors[lane].rev
            && forall id :: DT.InLane(w.table, lane, id) ==> w.table.rows[id].rev <= w.remote.body[lane.target].rev
  {
    var w := j.world;
    var id :| AtLeast(w.table, lane, rev, id);
    assert D.LaneOk(w, lane) && D.SentOk(w, id);
    DT.MirroredRevs(w, lane);
    forall id | DT.InLane(w.table, lane, id) ensures w.table.rows[id].rev <= D.RemoteRev(w, lane) {
      assert D.SentOk(w, id);
    }
  }

  // Whatever snapshot row the router has ever written for an issue of one task, and whatever
  // happened since, failed sends, crashes and rebuilds that meet the exact condition included: once
  // the lane is drained, the issue shows a snapshot that is no older, the newest one in the lane.
  lemma WrittenIsShown(cfg: D.Config, st: Ev.Settings, before: seq<Act>, after: seq<Act>, id: nat)
    requires var t := Reached(cfg, st, before).world.table; id in t.rows && t.rows[id].lane.stream == I.TaskSnapshot
    requires var lane := Reached(cfg, st, before).world.table.rows[id].lane;
             var w := Play(cfg, st, Reached(cfg, st, before), after).world;
             && MindfulPlay(cfg, st, Reached(cfg, st, before), after, lane)
             && D.Alone(w, lane) && DT.AllSent(w.table, lane)
    ensures var row := Reached(cfg, st, before).world.table.rows[id];
            var w := Play(cfg, st, Reached(cfg, st, before), after).world;
            && row.lane.target in w.remote.body && w.remote.body[row.lane.target].rev >= row.rev
            && forall o :: DT.InLane(w.table, row.lane, o) ==>
                 w.table.rows[o].rev <= w.remote.body[row.lane.target].rev
  {
    ReachedOk(cfg, st, before);
    var j := Reached(cfg, st, before);
    var row := j.world.table.rows[id];
    assert AtLeast(j.world.table, row.lane, row.rev, id);
    PlayKeepsFloor(cfg, st, j, after, row.lane, row.rev);
    PlayKeeps(cfg, st, j, after);
    DrainedShows(Play(cfg, st, j, after), row.lane, row.rev);
  }

  // If the outbox has a snapshot of a task's present revision, the drained issue shows the task as
  // it is, provided that no other task mirrors to the issue.
  lemma IssueShowsTask(cfg: D.Config, st: Ev.Settings, acts: seq<Act>, id: nat)
    requires var j := Reached(cfg, st, acts);
             && id in j.world.table.rows && j.world.table.rows[id].lane.stream == I.TaskSnapshot
             && j.world.table.rows[id].lane.taskId in j.run.db.tasks
             && j.world.table.rows[id].rev == j.run.db.tasks[j.world.table.rows[id].lane.taskId].rev
             && DT.AllSent(j.world.table, j.world.table.rows[id].lane)
             && D.Alone(j.world, j.world.table.rows[id].lane)
    ensures var j := Reached(cfg, st, acts);
            var lane := j.world.table.rows[id].lane;
            lane.target in j.world.remote.body
                && RR.ShowsTask(O.Snapshot(j.world.remote.body[lane.target]), j.run.db.tasks[lane.taskId])
  {
    ReachedOk(cfg, st, acts);
    var j := Reached(cfg, st, acts);
    var row := j.world.table.rows[id];
    assert AtLeast(j.world.table, row.lane, row.rev, id);
    DrainedShows(j, row.lane, row.rev);
    assert D.LaneOk(j.world, row.lane);
    assert RR.RowSound(j.run.db, j.world.table.cursors[row.lane].outboxId);
  }

  // ---- issue labels

  // Every rebuild of the task meets the exact condition for its labels.
  ghost predicate KeepingPlay(cfg: D.Config, st: Ev.Settings, j: Joint, acts: seq<Act>, id: string)
    decreases |acts|
  {
    acts == [] ||
    (&& (acts[0].Routes? ==> RT.Keeping(st, j.run, acts[0].move, id))
     && KeepingPlay(cfg, st, Apply(cfg, st, j, acts[0]), acts[1..], id))
  }

  lemma {:induction false} PlayKeepsLabels(cfg: D.Config, st: Ev.Settings, j: Joint, acts: seq<Act>, id: string)
    requires JointOk(j) && RR.LabelsSound(j.run.db, id) && KeepingPlay(cfg, st, j, acts, id)
    ensures RR.LabelsSound(Play(cfg, st, j, acts).run.db, id)
    decreases |acts|
  {
    if acts != [] {
      ActKeeps(cfg, st, j, acts[0]);
      if Enabled(st, j, acts[0]) {
        match acts[0]
        case Works(s) => RT.ApplyKeepsLabels(st, j.run, RR.Deliver(D.Apply(cfg, j.world, s).table), id);
        case Routes(m) => RT.ApplyKeepsLabels(st, j.run, m, id);
      }
      PlayKeepsLabels(cfg, st, Apply(cfg, st, j, acts[0]), acts[1..], id);
    }
  }

  function LabelLane(task: Ev.Task): O.Lane {
    O.Lane(task.id, I.TaskLabelSync, O.IssueTarget(task.id, task.sourceIssue))
  }

  // What the managed labels of an issue say of its task.
  predicate LabelsTell(names: set<string>, task: Ev.Task) {
    && ("critical" in names <==> task.critical)
    && ("cancelled" in names <==> task.state == Cancelled)
    && (task.state == HumanReviewRequired ==> "human_review_required" in names)
  }

  lemma NamesTell(desired: set<I.Label>, task: Ev.Task)
    requires RR.Agrees(desired, task)
    ensures LabelsTell(D.LabelNames(desired), task)
  {
    var names := D.LabelNames(desired);
    assert I.CriticalLabel in desired ==> D.LabelName(I.CriticalLabel) in names;
    assert I.CancelledLabel in desired ==> D.LabelName(I.CancelledLabel) in names;
    assert I.HumanReviewLabel in desired ==> D.LabelName(I.HumanReviewLabel) in names;
  }

  // The label rows of a task are the rows of its label lane.
  lemma SameLabelRows(j: Joint, id: string, rid: nat)
    requires JointOk(j) && id in j.run.db.tasks
    ensures RR.LabelRow(j.world.table, id, rid) <==> LL.LabelRow(j.world.table, LabelLane(j.run.db.tasks[id]), rid)
    ensures DT.InLane(j.world.table, LabelLane(j.run.db.tasks[id]), rid) ==> RR.LabelRow(j.world.table, id, rid)
  {
    assert RR.RowSound(j.run.db, rid) && RR.TaskSound(j.run.db, id) && O.RowOk(j.world.table, rid);
  }

  lemma Newest(s: set<nat>) returns (m: nat)
    requires s != {}
    ensures m in s && forall x :: x in s ==> x <= m
  {
    var first :| first in s;
    m := first;
    if s != {first} {
      assert s == (s - {first}) + {first};
      var rest := Newest(s - {first});
      if rest > first { m := rest; }
    }
  }

  // Once the label lane of an issue of one task is drained, the issue carries the critical label
  // exactly if the task is critical, and the cancelled label exactly if it is cancelled: over every
  // joint run in which due times rise along each lane, no send fails, no rebuild is forced, and
  // each rebuild of the task meets the exact condition for its labels.
  lemma DrainedLabelsTell(cfg: D.Config, st: Ev.Settings, acts: seq<Act>, id: string)
    requires SmoothPlay(cfg, st, Start(), acts) && KeepingPlay(cfg, st, Start(), acts, id)
    requires var j := Reached(cfg, st, acts);
             && id in j.run.db.tasks
             && D.Alone(j.world, LabelLane(j.run.db.tasks[id]))
             && DT.AllSent(j.world.table, LabelLane(j.run.db.tasks[id]))
    ensures var j := Reached(cfg, st, acts);
            LabelsTell(LL.ManagedAt(j.world, LabelLane(j.run.db.tasks[id])), j.run.db.tasks[id])
  {
    StartOk();
    ReachedOk(cfg, st, acts);
    PlayKeepsLabels(cfg, st, Start(), acts, id);
    var j := Reached(cfg, st, acts);
    var steps := PlayIsRun(cfg, st, Start(), acts);
    ShownLabels(cfg, j, steps, id);
  }

  lemma ShownLabels(cfg: D.Config, j: Joint, steps: seq<D.Step>, id: string)
    requires JointOk(j) && j.world == DT.Reached(cfg, steps) && DT.SmoothRun(cfg, D.Start(), steps)
    requires id in j.run.db.tasks && RR.LabelsSound(j.run.db, id)
    requires D.Alone(j.world, LabelLane(j.run.db.tasks[id])) && DT.AllSent(j.world.table, LabelLane(j.run.db.tasks[id]))
    ensures LabelsTell(LL.ManagedAt(j.world, LabelLane(j.run.db.tasks[id])), j.run.db.tasks[id])
  {
    var t, task := j.world.table, j.run.db.tasks[id];
    var lane := LabelLane(task);
    forall rid: nat
      ensures RR.LabelRow(t, id, rid) <==> LL.LabelRow(t, lane, rid)
      ensures DT.InLane(t, lane, rid) ==> RR.LabelRow(t, id, rid)
    {
      SameLabelRows(j, id, rid);
    }
    var rows := set rid | rid in t.rows && RR.LabelRow(t, id, rid);
    if rows == {} {
      forall rid: nat ensures !RR.LabelRow(t, id, rid) { assert RR.LabelRow(t, id, rid) ==> rid in rows; }
      LL.SmoothRunIsCalm(cfg, D.Start(), steps);
      LL.DrainedLabels(cfg, steps, lane, 0);
      LL.LastIs(t, j.world.events, lane);
      assert LL.LastSent(t, j.world.events, lane).None?;
    } else {
      var newest := Newest(rows);
      assert newest in rows;
      forall rid: nat | DT.InLane(t, lane, rid) ensures rid <= newest { assert rid in rows; }
      forall rid: nat | RR.LabelRow(t, id, rid) ensures rid <= newest { assert rid in rows; }
      assert RR.LatestLabel(t, id, newest);
      LL.LabelsConverge(cfg, steps, lane, newest);
      NamesTell(t.rows[newest].payload.desired, task);
    }
  }
}
