// Runs that end with an outbox or an issue at odds with a task: a router commit between a rebuild's
// read and its transaction, and two tasks on one issue.
module RebuildRaces {
  import opened Common
  import opened Events
  import opened StateMachine
  import opened Transitions
  import opened Router
  import opened RouterRuns
  import opened RouterTheorems
  import D = Delivery
  import I = Idempotency
  import O = Outbox
  import R = Rebuild

  const ST := Settings({}, "http://relay", 0)

  const ISSUE: Payload := map["issue_id" := Str("7")]

  // An issue is opened by a command, and later its task is made critical.
  function Opening(eventId: string): Event {
    Event(eventId, Cli, IssuesOpened, ISSUE, 0)
  }

  const ID := TaskIdFromEvent("e1")
  const CRITICAL := Event("e2", Cli, CriticalOn, map["task_id" := Str(ID)], 0)

  function NewTask(eventId: string): Task {
    Task(TaskIdFromEvent(eventId), Some("7"), New, 0, false, false, None, Branches(None, None, None),
        "cli:" + "unknown", None)
  }

  function Planned(eventId: string): Task {
    NewTask(eventId).(state := Planning, rev := 1)
  }

  // The row that a transition writes for a task without a plan.
  function SnapshotRow(task: Task, eventId: string): O.Row {
    O.FreshRow(R.SnapshotDraft(R.Request(ViewOf(task, None), false, 0, eventId, ST.baseUrl)))
  }

  function LabelsRow(task: Task, eventId: string): O.Row {
    O.FreshRow(R.LabelDraft(R.Request(ViewOf(task, None), false, 0, eventId, ST.baseUrl)))
  }

  lemma PlayStep(st: Settings, r: Run, m: Move, rest: seq<Move>)
    ensures Play(st, r, [m] + rest) == Play(st, Apply(st, r, m), rest)
  {
    assert ([m] + rest)[0] == m && ([m] + rest)[1..] == rest;
  }

  // ---- an issue is opened

  function OpeningCtx(eventId: string): Ctx {
    Ctx(NewTask(eventId), Opening(eventId), None, ST)
  }

  const PLAN := Spec(Always, To(Planning), NewToPlanning)

  lemma Absent(key: string)
    requires |key| != |"issue_id"|
    ensures key !in ISSUE && Get(ISSUE, key) == Null
  {
  }

  lemma OpeningCreates(eventId: string)
    ensures CreatedTask(Opening(eventId)) == Some(NewTask(eventId)) && TaskRefOf(Opening(eventId).payload) == NoRef
  {
    Absent("task_id");
    Absent("actor");
    Absent("lease_branch");
    Absent("feature_branch");
    Absent("worktree_path");
    Absent("source_issue_id");
    assert "issue_id" in ISSUE && Get(ISSUE, "issue_id") == Str("7");
    assert DerivedLease(Opening(eventId)) == None;
    assert GetOr(ISSUE, "actor", Str("unknown")) == Str("unknown");
  }

  lemma OpeningRoutes(db: Db, eventId: string)
    requires TaskIdFromEvent(eventId) !in db.tasks && TaskIdFromEvent(eventId) !in db.plans
    ensures Route(db, ST, Opening(eventId)) == Applied(WithTask(db, NewTask(eventId)), OpeningCtx(eventId), PLAN)
  {
    OpeningCreates(eventId);
    assert Specs(New, IssuesOpened) == [PLAN] && Choose(OpeningCtx(eventId), [PLAN]) == Picked(PLAN);
  }

  lemma OpeningEmits(t: O.Table, eventId: string)
    requires O.TableOk(t) && forall id :: id in t.rows ==> t.rows[id].lane.taskId != TaskIdFromEvent(eventId)
    ensures EmitAll(t, OpeningCtx(eventId), Planned(eventId), [EmitSnapshot])
         == t.(rows := t.rows[t.nextId := SnapshotRow(Planned(eventId), eventId)], nextId := t.nextId + 1)
  {
    var d := DraftOf(OpeningCtx(eventId), Planned(eventId), EmitSnapshot);
    forall id ensures id !in O.Conflicting(t, d) { assert O.RowOk(t, id); }
    assert [EmitSnapshot][1..] == [];
  }

  // An opened issue gets a task of its own, and the outbox its first snapshot.
  lemma OpeningRuns(r: Run, eventId: string)
    requires eventId !in r.db.inbox
    requires TaskIdFromEvent(eventId) !in r.db.tasks && TaskIdFromEvent(eventId) !in r.db.plans
    requires O.TableOk(r.db.outbox)
    requires forall id :: id in r.db.outbox.rows ==> r.db.outbox.rows[id].lane.taskId != TaskIdFromEvent(eventId)
    ensures var r' := Apply(ST, Apply(ST, r, Ingest(Opening(eventId))), RouteNext(eventId));
            var t := r.db.outbox;
            && r'.db.tasks == r.db.tasks[TaskIdFromEvent(eventId) := Planned(eventId)]
            && r'.db.outbox
                 == t.(rows := t.rows[t.nextId := SnapshotRow(Planned(eventId), eventId)], nextId := t.nextId + 1)
            && r'.db.plans == r.db.plans && r'.readings == r.readings
            && r'.db.inbox.Keys == r.db.inbox.Keys + {eventId}
  {
    var r1 := Apply(ST, r, Ingest(Opening(eventId)));
    OpeningRoutes(r1.db, eventId);
    assert Bumped(NewTask(eventId), Handle(OpeningCtx(eventId), NewToPlanning)) == Planned(eventId);
    OpeningEmits(r.db.outbox, eventId);
  }

  // ---- the task is made critical

  function Critical(): Task {
    Planned("e1").(critical := true, rev := 2)
  }

  function CriticalCtx(): Ctx {
    Ctx(Planned("e1"), CRITICAL, None, ST)
  }

  const FLAG := Spec(Always, To(Planning), CriticalOnSameState)

  lemma CriticalRoutes(db: Db)
    requires ID in db.tasks && db.tasks[ID] == Planned("e1") && ID !in db.plans
    ensures Route(db, ST, CRITICAL) == Applied(db, CriticalCtx(), FLAG)
  {
    assert Get(CRITICAL.payload, "task_id") == Str(ID);
    assert Specs(Planning, CriticalOn) == [FLAG] && Choose(CriticalCtx(), [FLAG]) == Picked(FLAG);
  }

  // The outbox after the first event, and after the second.
  function One(): O.Table {
    O.Table(map[1 := SnapshotRow(Planned("e1"), "e1")], 2, map[])
  }

  function Three(): O.Table {
    O.Table(map[1 := SnapshotRow(Planned("e1"), "e1"), 2 := SnapshotRow(Critical(), "e2"),
                3 := LabelsRow(Critical(), "e2")], 4, map[])
  }

  lemma CriticalEmits()
    ensures EmitAll(One(), CriticalCtx(), Critical(), [EmitSnapshot, EmitLabels]) == Three()
  {
    var s, l := DraftOf(CriticalCtx(), Critical(), EmitSnapshot), DraftOf(CriticalCtx(), Critical(), EmitLabels);
    var two := O.Insert(One(), s);
    assert O.Conflicting(One(), s) == {} && O.Conflicting(two, l) == {};
    assert O.Insert(two, l).rows == Three().rows;
    assert [EmitSnapshot, EmitLabels][1..] == [EmitLabels] && [EmitLabels][1..] == [];
  }

  lemma CriticalRuns(r: Run)
    requires "e2" !in r.db.inbox && ID in r.db.tasks && r.db.tasks[ID] == Planned("e1") && ID !in r.db.plans
    requires r.db.outbox == One()
    ensures var r' := Apply(ST, Apply(ST, r, Ingest(CRITICAL)), RouteNext("e2"));
            && r'.db.tasks == r.db.tasks[ID := Critical()]
            && r'.db.outbox == Three() && r'.readings == r.readings
  {
    var r1 := Apply(ST, r, Ingest(CRITICAL));
    CriticalRoutes(r1.db);
    assert Bumped(Planned("e1"), Handle(CriticalCtx(), CriticalOnSameState)) == Critical();
    CriticalEmits();
  }

  // ---- a rebuild reads before that event and writes after it

  function Race(op: string): seq<Move> {
    [Ingest(Opening("e1")), RouteNext("e1"), ReadTask(op, ID), ReadPlan(op), Ingest(CRITICAL), RouteNext("e2")]
  }

  function Rebuilding(op: string, force: bool): Move {
    RebuildRows(op, force, 0, "audit")
  }

  const STALE := ViewOf(Planned("e1"), None)

  // The run so far, and what the process has read.
  predicate Raced(r: Run, op: string) {
    r.db.tasks == map[ID := Critical()] && r.db.outbox == Three() && r.readings == map[op := PlanRead(STALE)]
  }

  lemma RaceRuns(op: string)
    ensures Raced(Reached(ST, Race(op)), op)
  {
    var r0 := RouterRuns.Start();
    PlaySix(r0, Ingest(Opening("e1")), RouteNext("e1"), ReadTask(op, ID), ReadPlan(op), Ingest(CRITICAL),
        RouteNext("e2"));
    OpenedOne();
    var r2 := Apply(ST, Apply(ST, r0, Ingest(Opening("e1"))), RouteNext("e1"));
    ReadsRun(r2, op);
    CriticalRuns(r2.(readings := map[op := PlanRead(STALE)]));
  }

  lemma OpenedOne()
    ensures var r := Apply(ST, Apply(ST, RouterRuns.Start(), Ingest(Opening("e1"))), RouteNext("e1"));
            && r.db.tasks == map[ID := Planned("e1")] && r.db.outbox == One() && r.db.plans == map[]
            && r.readings == map[] && "e2" !in r.db.inbox
  {
    OpeningRuns(RouterRuns.Start(), "e1");
  }

  lemma ReadsRun(r: Run, op: string)
    requires ID in r.db.tasks && r.db.tasks[ID] == Planned("e1") && ID !in r.db.plans && r.readings == map[]
    ensures Apply(ST, Apply(ST, r, ReadTask(op, ID)), ReadPlan(op))
         == r.(readings := map[op := PlanRead(STALE)])
  {
    var r1 := Apply(ST, r, ReadTask(op, ID));
    assert r1 == r.(readings := map[op := TaskRead(STALE)]);
  }

  lemma PlaySix(r: Run, a: Move, b: Move, c: Move, d: Move, e: Move, f: Move)
    ensures Play(ST, r, [a, b, c, d, e, f])
         == Apply(ST, Apply(ST, Apply(ST, Apply(ST, Apply(ST, Apply(ST, r, a), b), c), d), e), f)
  {
    PlayThree(r, a, b, c, [d, e, f]);
    assert [a, b, c] + [d, e, f] == [a, b, c, d, e, f];
    var r3 := Apply(ST, Apply(ST, Apply(ST, r, a), b), c);
    PlayThree(r3, d, e, f, []);
    assert [d, e, f] + [] == [d, e, f];
  }

  lemma PlayThree(r: Run, a: Move, b: Move, c: Move, rest: seq<Move>)
    ensures Play(ST, r, [a, b, c] + rest) == Play(ST, Apply(ST, Apply(ST, Apply(ST, r, a), b), c), rest)
  {
    assert [a, b, c] + rest == [a] + ([b] + ([c] + rest));
    PlayStep(ST, r, a, [b] + ([c] + rest));
    PlayStep(ST, Apply(ST, r, a), b, [c] + rest);
    PlayStep(ST, Apply(ST, Apply(ST, r, a), b), c, rest);
  }

  lemma RebuildRuns(r: Run, op: string, force: bool)
    requires Raced(r, op)
    ensures HasView(r, op) && RebuildRequest(ST, r, Rebuilding(op, force)) == StaleRequest(force)
    ensures var r' := Apply(ST, r, Rebuilding(op, force));
            r'.db.tasks == r.db.tasks && r'.db.outbox == R.Rebuilt(Three(), StaleRequest(force))
  {
  }

  lemma LastMove(op: string, force: bool)
    ensures Raced(Reached(ST, Race(op)), op)
    ensures Reached(ST, Race(op) + [Rebuilding(op, force)]) == Apply(ST, Reached(ST, Race(op)), Rebuilding(op, force))
  {
    RaceRuns(op);
    PlayConcat(RouterRuns.Start(), Race(op), [Rebuilding(op, force)]);
    PlayOne(Reached(ST, Race(op)), Rebuilding(op, force));
  }

  function StaleRequest(force: bool): R.Request {
    R.Request(STALE, force, 0, "audit", ST.baseUrl)
  }

  // The plain rebuild finds its snapshot there and inserts its label row behind the newer one: the
  // newest label row of the task, which is critical, desires no label.
  lemma StaleRebuildDeniesCritical(op: string)
    ensures var before, r := Reached(ST, Race(op)), Reached(ST, Race(op) + [Rebuilding(op, false)]);
            && HasView(before, op) && ID in before.db.tasks
            && !LabelsKept(before.db, StaleRequest(false))
            && r.db.tasks == before.db.tasks && r.db.tasks[ID].critical
            && LatestLabel(r.db.outbox, ID, 4) && r.db.outbox.rows[4].payload.desired == {}
  {
    LastMove(op, false);
    RebuildRuns(Reached(ST, Race(op)), op, false);
    PlainRebuilt(StaleRequest(false));
  }

  lemma PlainRebuilt(q: R.Request)
    requires q == StaleRequest(false)
    ensures R.Rebuilt(Three(), q).rows == Three().rows[4 := O.FreshRow(R.LabelDraft(q))]
    ensures O.Conflicting(Three(), R.LabelDraft(q)) == {} && O.DesiredLabels(STALE.state, STALE.critical) == {}
  {
    assert 1 in O.Conflicting(Three(), R.SnapshotDraft(q));
  }

  // The forced rebuild deletes the three unsent rows and puts those of the older revision in their
  // place: the outbox has forgotten the snapshot of the task's present revision.
  lemma StaleForceForgets(op: string)
    ensures var before, r := Reached(ST, Race(op)), Reached(ST, Race(op) + [Rebuilding(op, true)]);
            && ID in r.db.tasks && r.db.tasks[ID].rev == 2 && r.db.tasks[ID].critical
            && 2 in before.db.outbox.rows && before.db.outbox.rows[2] == SnapshotRow(r.db.tasks[ID], "e2")
            && r.db.outbox.rows.Keys == {4, 5} && r.db.outbox.rows[4].rev == 1 && r.db.outbox.rows[5].rev == 1
            && LatestLabel(r.db.outbox, ID, 5) && r.db.outbox.rows[5].payload.desired == {}
  {
    LastMove(op, true);
    RebuildRuns(Reached(ST, Race(op)), op, true);
    ForcedRebuilt(StaleRequest(true));
  }

  lemma ForcedRebuilt(q: R.Request)
    requires q == StaleRequest(true)
    ensures R.Rebuilt(Three(), q).rows
         == map[4 := O.FreshRow(R.SnapshotDraft(q)), 5 := O.FreshRow(R.LabelDraft(q))]
  {
    var b := R.Base(Three(), q);
    assert b.rows == map[];
    assert O.Conflicting(b, R.SnapshotDraft(q)) == {};
    assert O.Conflicting(O.Insert(b, R.SnapshotDraft(q)), R.LabelDraft(q)) == {};
  }

  lemma PlayOne(r: Run, m: Move)
    ensures Play(ST, r, [m]) == Apply(ST, r, m)
  {
    assert [m] == [m] + [];
    PlayStep(ST, r, m, []);
  }

  lemma {:induction false} PlayConcat(r: Run, a: seq<Move>, b: seq<Move>)
    ensures Play(ST, r, a + b) == Play(ST, Play(ST, r, a), b)
    decreases |a|
  {
    if a == [] {
      assert a + b == b;
    } else {
      assert (a + b)[0] == a[0] && (a + b)[1..] == a[1..] + b;
      PlayConcat(Apply(ST, r, a[0]), a[1..], b);
    }
  }

  // ---- two tasks on one issue

  // The issue is opened a second time, in an event with another id.
  function Reopening(a: string, b: string): seq<Move> {
    [Ingest(Opening(a)), RouteNext(a), Ingest(Opening(b)), RouteNext(b)]
  }

  // Two tasks whose rows have the same target: their snapshot lanes are not alone on the issue.
  lemma TwoTasksOneIssue(a: string, b: string)
    requires a != b
    ensures var t := Reached(ST, Reopening(a, b)).db.outbox;
            && Reached(ST, Reopening(a, b)).db.tasks.Keys == {TaskIdFromEvent(a), TaskIdFromEvent(b)}
            && TaskIdFromEvent(a) != TaskIdFromEvent(b)
            && {1, 2} <= t.rows.Keys
            && t.rows[1].lane == O.Lane(TaskIdFromEvent(a), I.TaskSnapshot, "7")
            && t.rows[2].lane == O.Lane(TaskIdFromEvent(b), I.TaskSnapshot, "7")
            && !D.Alone(D.Grown(D.Start(), t), t.rows[1].lane) && !D.Alone(D.Grown(D.Start(), t), t.rows[2].lane)
  {
    PlayFour(RouterRuns.Start(), Ingest(Opening(a)), RouteNext(a), Ingest(Opening(b)), RouteNext(b));
    BothOpened(a, b);
    NotAlone(Reached(ST, Reopening(a, b)).db.outbox);
  }

  lemma BothOpened(a: string, b: string)
    requires a != b
    ensures TaskIdFromEvent(a) != TaskIdFromEvent(b)
    ensures var r2 := Apply(ST, Apply(ST, RouterRuns.Start(), Ingest(Opening(a))), RouteNext(a));
            var db := Apply(ST, Apply(ST, r2, Ingest(Opening(b))), RouteNext(b)).db;
            && db.tasks == map[TaskIdFromEvent(a) := Planned(a), TaskIdFromEvent(b) := Planned(b)]
            && db.outbox.rows == map[1 := SnapshotRow(Planned(a), a), 2 := SnapshotRow(Planned(b), b)]
  {
    OpeningRuns(RouterRuns.Start(), a);
    assert TaskIdFromEvent(a)[|"task-of-"|..] == a && TaskIdFromEvent(b)[|"task-of-"|..] == b;
    OpeningRuns(Apply(ST, Apply(ST, RouterRuns.Start(), Ingest(Opening(a))), RouteNext(a)), b);
  }

  lemma NotAlone(t: O.Table)
    requires {1, 2} <= t.rows.Keys && t.rows[1].lane != t.rows[2].lane
    requires t.rows[1].lane.stream == t.rows[2].lane.stream && t.rows[1].lane.target == t.rows[2].lane.target
    ensures !D.Alone(D.Grown(D.Start(), t), t.rows[1].lane) && !D.Alone(D.Grown(D.Start(), t), t.rows[2].lane)
  {
    assert t.rows[1].lane in D.LanesOf(t) && t.rows[2].lane in D.LanesOf(t);
  }

  lemma PlayFour(r: Run, a: Move, b: Move, c: Move, d: Move)
    ensures Play(ST, r, [a, b, c, d]) == Apply(ST, Apply(ST, Apply(ST, Apply(ST, r, a), b), c), d)
  {
    PlayThree(r, a, b, c, [d]);
    assert [a, b, c] + [d] == [a, b, c, d];
    PlayOne(Apply(ST, Apply(ST, Apply(ST, r, a), b), c), d);
  }
}
