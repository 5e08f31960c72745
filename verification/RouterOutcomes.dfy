/**
 What Router.run_once makes of each event (router/router.py): the task row that is committed with the
 outbox rows beside it, a skip that only marks the event, or a rollback. Events that name a stored task
 meet the outcomes of module Outcomes; the others create a task, requeue a branch or are skipped.
 */
module RouterOutcomes {
  import opened Common
  import opened Events
  import opened Guards
  import opened StateMachine
  import opened Transitions
  import opened Router
  import opened HandlerFacts
  import opened Outcomes
  import opened RouterRuns
  import opened RouterTheorems
  import I = Idempotency
  import O = Outbox
  import W = Waiters

  // ---- outcomes

  // mark_processed: the event's row alone, and only its mark.
  predicate Marks(inbox: map<string, InboxRow>, inbox': map<string, InboxRow>, eventId: string) {
    && inbox'.Keys == inbox.Keys
    && forall k :: k in inbox ==>
         inbox'[k].event == inbox[k].event && (inbox'[k].processed <==> inbox[k].processed || k == eventId)
  }

  function Issue(task: Task): string {
    if task.sourceIssue.Some? && task.sourceIssue.value != "" then task.sourceIssue.value else task.id
  }

  function Url(task: Task, baseUrl: string): string {
    if task.sourceIssue.Some? && task.sourceIssue.value != "" then baseUrl + "/issues/" + task.sourceIssue.value
    else baseUrl + "/tasks/" + task.id
  }

  // One outbox row as the event writes it for the task it leaves.
  predicate Added(row: O.Row, e: Emit, task: Task, plan: Option<Plan>, ev: Event, st: Settings) {
    && row.origin == ev.id && row.rev == task.rev && row.due == ev.receivedAt + st.retryInitial
    && row.claim == None && row.attempts == 0 && row.sent == None && row.lane.taskId == task.id
    && match e
       case EmitSnapshot =>
         var planRev := if plan.None? then None else Some(plan.value.rev);
         && row.lane.stream == I.TaskSnapshot && row.lane.target == Issue(task)
         && row.payload
              == O.Snapshot(I.SnapshotPayload(task.state, task.rev, planRev, task.critical, Url(task, st.baseUrl)))
       case EmitLabels =>
         && row.lane.stream == I.TaskLabelSync && row.lane.target == Issue(task) && row.payload.Labels?
         && (I.CriticalLabel in row.payload.desired <==> task.critical)
         && (I.HumanReviewLabel in row.payload.desired <==> task.state == HumanReviewRequired)
         && (I.CancelledLabel in row.payload.desired <==> task.state == Cancelled)
       case EmitAlert(kind) =>
         && row.lane.stream == I.DiscordAlert && row.payload == O.Alert(kind, task.state)
         && row.lane.target
              == (if task.notificationTarget.Some? && task.notificationTarget.value != ""
                  then task.notificationTarget.value else "admin_user_ids")
  }

  // The outbox gains one row per write, in this order, behind the rows it has.
  ghost predicate Appended(t: O.Table, t': O.Table, task: Task, plan: Option<Plan>, ev: Event, st: Settings,
      writes: seq<Emit>)
  {
    && t'.cursors == t.cursors && t'.nextId == t.nextId + |writes|
    && (forall rid :: rid in t.rows ==> rid in t'.rows && t'.rows[rid] == t.rows[rid])
    && (forall rid :: rid in t'.rows && rid !in t.rows ==> t.nextId <= rid < t'.nextId)
    && (forall k :: 0 <= k < |writes| ==> AddedAt(t', t.nextId + k, writes[k], task, plan, ev, st))
  }

  predicate AddedAt(t: O.Table, at: nat, e: Emit, task: Task, plan: Option<Plan>, ev: Event, st: Settings) {
    at in t.rows && Added(t.rows[at], e, task, plan, ev, st)
  }

  // The event takes effect: it leaves this task row, logs the change, writes these rows and is marked.
  ghost predicate Commits(db: Db, r: Routed, ev: Event, st: Settings, from: TaskState, after: Task, writes: seq<Emit>) {
    && r.Committed?
    && r.report.taskId == Some(after.id) && r.report.from == Some(from) && r.report.to == Some(after.state)
    && r.report.skipped == None
    && (forall rid :: rid in r.report.outboxIds <==> rid in r.db.outbox.rows && r.db.outbox.rows[rid].origin == ev.id)
    && r.db.tasks == db.tasks[after.id := after]
    && r.db.changes == db.changes + [StateChanged(after.id, from, after.state, ev.kind)]
    && Appended(db.outbox, r.db.outbox, after, LatestPlan(db, after.id), ev, st, writes)
    && Marks(db.inbox, r.db.inbox, ev.id)
    && r.db.plans == db.plans && r.db.waiters == db.waiters
  }

  // The event is skipped: it is marked, and nothing else happens.
  predicate Skips(db: Db, r: Routed, ev: Event, task: Option<Task>, why: Skip) {
    && r.Committed?
    && (match task
        case None => r.report == Report(None, None, None, {}, Some(why))
        case Some(t) => r.report == Report(Some(t.id), Some(t.state), None, {}, Some(why)))
    && r.db == db.(inbox := r.db.inbox) && Marks(db.inbox, r.db.inbox, ev.id)
  }

  // ---- from the table to outcomes

  lemma {:induction false} EmitAllAt(t: O.Table, ctx: Ctx, after: Task, emits: seq<Emit>, k: nat)
    requires O.TableOk(t) && Unblocked(t, after, emits) && k < |emits|
    requires forall i, j :: 0 <= i < j < |emits| ==> StreamRank(emits[i]) != StreamRank(emits[j])
    ensures var t' := EmitAll(t, ctx, after, emits);
            t.nextId + k in t'.rows && t'.rows[t.nextId + k] == O.FreshRow(DraftOf(ctx, after, emits[k]))
    decreases |emits|
  {
    var d := DraftOf(ctx, after, emits[0]);
    DraftIsNew(t, ctx, after, emits, emits[0]);
    O.InsertKeepsTableOk(t, d);
    RestUnblocked(t, ctx, after, emits);
    if k == 0 {
      EmitAllRows(O.Insert(t, d), ctx, after, emits[1..]);
    } else {
      EmitAllAt(O.Insert(t, d), ctx, after, emits[1..], k - 1);
    }
  }

  lemma DraftIsAdded(ctx: Ctx, after: Task, e: Emit)
    ensures Added(O.FreshRow(DraftOf(ctx, after, e)), e, after, ctx.plan, ctx.event, ctx.settings)
  {
  }

  lemma EmitsAppend(t: O.Table, ctx: Ctx, after: Task, emits: seq<Emit>)
    requires O.TableOk(t) && Unblocked(t, after, emits)
    requires forall i, j :: 0 <= i < j < |emits| ==> StreamRank(emits[i]) != StreamRank(emits[j])
    ensures Appended(t, EmitAll(t, ctx, after, emits), after, ctx.plan, ctx.event, ctx.settings, emits)
  {
    EmitAllRows(t, ctx, after, emits);
    var t' := EmitAll(t, ctx, after, emits);
    forall rid | rid in t'.rows && rid !in t.rows ensures t.nextId <= rid < t'.nextId { assert O.RowOk(t', rid); }
    forall k | 0 <= k < |emits|
      ensures AddedAt(t', t.nextId + k, emits[k], after, ctx.plan, ctx.event, ctx.settings)
    {
      EmitIsAdded(t, ctx, after, emits, k);
    }
  }

  lemma EmitIsAdded(t: O.Table, ctx: Ctx, after: Task, emits: seq<Emit>, k: nat)
    requires O.TableOk(t) && Unblocked(t, after, emits) && k < |emits|
    requires forall i, j :: 0 <= i < j < |emits| ==> StreamRank(emits[i]) != StreamRank(emits[j])
    ensures AddedAt(EmitAll(t, ctx, after, emits), t.nextId + k, emits[k], after, ctx.plan, ctx.event, ctx.settings)
  {
    EmitAllAt(t, ctx, after, emits, k);
    DraftIsAdded(ctx, after, emits[k]);
  }

  lemma AppliedAppends(db: Db, ctx: Ctx, spec: Spec)
    requires Ready(db, ctx) && Fires(ctx, spec)
    ensures var c := Handle(ctx, spec.handler);
            var t' := Applied(db, ctx, spec).db.outbox;
            Appended(db.outbox, t', Bumped(ctx.task, c), ctx.plan, ctx.event, ctx.settings, c.emits)
  {
    var c := Handle(ctx, spec.handler);
    OutboxReady(db, ctx, spec);
    EmitFacts(ctx, spec.handler);
    EmitsAppend(db.outbox, ctx, Bumped(ctx.task, c), c.emits);
  }

  lemma ProcessedMarks(db: Db, eventId: string)
    ensures Marks(db.inbox, Processed(db, eventId).inbox, eventId)
  {
  }

  lemma AppliedCommits(db: Db, ctx: Ctx, spec: Spec)
    requires Ready(db, ctx) && Fires(ctx, spec) && ctx.plan == LatestPlan(db, ctx.task.id)
    ensures var c := Handle(ctx, spec.handler);
            Commits(db, Applied(db, ctx, spec), ctx.event, ctx.settings, ctx.task.state, Bumped(ctx.task, c), c.emits)
  {
    AppliedAppends(db, ctx, spec);
    ReportedStateIsWritten(ctx, spec);
    AppliedWrites(db, ctx, spec);
    ProcessedMarks(db, ctx.event.id);
  }

  // ---- events that name a stored task

  // payload["task_id"] as SQLite compares it with the text of a key.
  predicate Names(p: Payload, id: string) {
    match Get(p, "task_id")
    case Str(s) => s == id
    case Num(n) => id == Decimal(n)
    case Bool(b) => id == if b then "1" else "0"
    case _ => false
  }

  lemma NamesIsRef(p: Payload, id: string)
    ensures Names(p, id) <==> TaskRefOf(p) == Ref(id)
    ensures TaskRefOf(p).Unbindable? <==> Get(p, "task_id").List? || Get(p, "task_id").Obj?
  {
  }

  ghost predicate Named(db: Db, ev: Event, id: string) {
    DbOk(db) && id in db.tasks && Names(ev.payload, id)
  }

  function CtxOf(db: Db, st: Settings, ev: Event, id: string): Ctx
    requires id in db.tasks
  {
    Ctx(db.tasks[id], ev, if id in db.plans then Some(db.plans[id]) else None, st)
  }

  ghost predicate Meets(db: Db, r: Routed, ev: Event, st: Settings, t: Task, o: Outcome) {
    match o
    case Effect(after, writes) => after.id == t.id && Commits(db, r, ev, st, t.state, after, writes)
    case Ignored(NoEntry) => Skips(db, r, ev, Some(t), NoTransition)
    case Ignored(NoGuardHeld) => Skips(db, r, ev, Some(t), NoGuardMatched)
    case Failure => r.RolledBack?
  }

  lemma NamedRoute(db: Db, st: Settings, ev: Event, id: string)
    requires Named(db, ev, id)
    ensures Route(db, st, ev) == RouteTask(db, st, ev, db.tasks[id])
    ensures db.tasks[id].id == id && db.tasks[id].state != New
  {
    NamesIsRef(ev.payload, id);
    assert TaskSound(db, id) && Settled(db, id);
  }

  lemma TaskMeets(db: Db, st: Settings, ev: Event, t: Task)
    requires Ready(db, Ctx(t, ev, LatestPlan(db, t.id), st))
    ensures Meets(db, RouteTask(db, st, ev, t), ev, st, t, Decided(Ctx(t, ev, LatestPlan(db, t.id), st)))
  {
    var ctx := Ctx(t, ev, LatestPlan(db, t.id), st);
    var specs := Specs(t.state, ev.kind);
    ChosenHolds(ctx, specs);
    ProcessedMarks(db, ev.id);
    if specs != [] && Choose(ctx, specs).Picked? { AppliedCommits(db, ctx, Choose(ctx, specs).spec); }
  }

  // What an event that names a stored task comes to.
  lemma EventOutcome(db: Db, st: Settings, ev: Event, id: string)
    requires Named(db, ev, id)
    ensures Meets(db, Route(db, st, ev), ev, st, db.tasks[id], OutcomeOf(CtxOf(db, st, ev, id)))
  {
    NamedRoute(db, st, ev, id);
    TaskMeets(db, st, ev, db.tasks[id]);
    TableAgrees(CtxOf(db, st, ev, id));
  }

  // The event is looked past exactly where its type means nothing in the task's state.
  lemma SkippedExactly(db: Db, st: Settings, ev: Event, id: string)
    requires Named(db, ev, id)
    ensures var r := Route(db, st, ev);
            (r.Committed? && r.report.skipped == Some(NoTransition)) <==> !Heeded(db.tasks[id].state, ev.kind)
  {
    EventOutcome(db, st, ev, id);
    HeededExactly(CtxOf(db, st, ev, id));
  }

  // A /cancel commits its task as cancelled from any state but done, whatever its payload says.
  lemma CancelCommits(db: Db, st: Settings, ev: Event, id: string)
    requires Named(db, ev, id) && ev.kind == Cancel && db.tasks[id].state != Done
    ensures var t, r := db.tasks[id], Route(db, st, ev);
            && r.Committed? && r.report.skipped == None
            && r.db.tasks == db.tasks[id := t.(state := Cancelled, rev := t.rev + 1)]
  {
    var t := db.tasks[id];
    EffectCommits(db, st, ev, id, t.(state := Cancelled, rev := t.rev + 1), [EmitLabels]);
  }

  lemma EffectCommits(db: Db, st: Settings, ev: Event, id: string, after: Task, writes: seq<Emit>)
    requires Named(db, ev, id) && OutcomeOf(CtxOf(db, st, ev, id)) == Effect(after, writes)
    ensures var r := Route(db, st, ev);
            r.Committed? && r.report.skipped == None && r.db.tasks == db.tasks[id := after]
  {
    EventOutcome(db, st, ev, id);
    assert TaskSound(db, id);
  }

  // ---- events that name no stored task

  // The name of a file, a branch or an issue, where the payload has one.
  function NameOf(v: Value): Option<string> {
    if v == Null then None else Some(Text(v))
  }

  // Forgejo names the branch in the event or in the issue that it carries.
  function LeaseBranch(ev: Event): Option<string> {
    var p := ev.payload;
    var raw := Get(p, "raw");
    var issue := if raw.Obj? then Get(raw.fields, "issue") else Null;
    if Get(p, "lease_branch") != Null then NameOf(p["lease_branch"])
    else if ev.source != Forgejo then None
    else if Given(p, "base_branch") then NameOf(p["base_branch"])
    else if Get(p, "target_branch") != Null then NameOf(p["target_branch"])
    else if !issue.Obj? then None
    else if Given(issue.fields, "base_branch") then NameOf(issue.fields["base_branch"])
    else NameOf(Get(issue.fields, "target_branch"))
  }

  // The row of a task whose opening event has been routed.
  predicate Opened(ev: Event, t: Task) {
    var p := ev.payload;
    && t.id == "task-of-" + ev.id && t.state == Planning && t.rev == 1
    && !t.critical && !t.gate && t.resume == None
    && t.sourceIssue == NameOf(if Given(p, "source_issue_id") then p["source_issue_id"] else Get(p, "issue_id"))
    && t.branches.lease == LeaseBranch(ev)
    && t.branches.feature == NameOf(Get(p, "feature_branch"))
    && t.branches.worktree == NameOf(Get(p, "worktree_path"))
    && t.notificationTarget == (if ev.source == Discord then NameOf(Get(p, "actor")) else None)
    && t.requestedBy
       == match ev.source
          case Forgejo => "forgejo:" + (if "sender_login" in p then Text(p["sender_login"]) else "unknown")
          case Discord => "discord:" + (if "actor" in p then Text(p["actor"]) else "None")
          case _ => "cli:" + (if "actor" in p then Text(p["actor"]) else "unknown")
  }

  ghost predicate NamesNone(db: Db, ev: Event) {
    && DbOk(db) && !Get(ev.payload, "task_id").List? && !Get(ev.payload, "task_id").Obj?
    && forall id :: id in db.tasks ==> !Names(ev.payload, id)
  }

  function Starts(ev: Event): Task
    requires ev.source != Internal
  {
    var t := CreatedTask(ev).value;
    t.(state := Planning, rev := 1)
  }

  lemma StartsOpened(ev: Event)
    requires ev.source != Internal
    ensures Opened(ev, Starts(ev))
  {
  }

  // issues.opened creates its task in planning, with the snapshot of its first revision; the same
  // event again finds the task and is skipped; an internal one cannot create tasks and is rolled back.
  lemma OpeningCreatesTask(db: Db, st: Settings, ev: Event)
    requires NamesNone(db, ev) && ev.kind == IssuesOpened
    ensures var id, r := "task-of-" + ev.id, Route(db, st, ev);
            if ev.source == Internal then r.RolledBack?
            else if id in db.tasks then Skips(db, r, ev, Some(db.tasks[id]), NoTransition)
            else exists t :: Opened(ev, t) && Commits(db, r, ev, st, New, t, [EmitSnapshot])
  {
    var id := "task-of-" + ev.id;
    NobodyNamed(db, st, ev);
    if ev.source != Internal {
      var newborn := CreatedTask(ev).value;
      var base := WithTask(db, newborn);
      var t := base.tasks[id];
      var ctx := Ctx(t, ev, LatestPlan(base, id), st);
      if id in db.tasks {
        assert TaskSound(db, id) && Settled(db, id);
      } else {
        CreatedSound(db, newborn);
        StartsOpened(ev);
      }
      TaskMeets(base, st, ev, t);
      TableAgrees(ctx);
      if id !in db.tasks { FromBase(db, base, Route(db, st, ev), ev, st, newborn, Starts(ev), [EmitSnapshot]); }
    }
  }

  lemma NobodyNamed(db: Db, st: Settings, ev: Event)
    requires NamesNone(db, ev)
    ensures ev.kind == IssuesOpened && ev.source == Internal ==> Route(db, st, ev).RolledBack?
    ensures ev.kind == IssuesOpened && ev.source != Internal ==>
              var base := WithTask(db, CreatedTask(ev).value);
              "task-of-" + ev.id == CreatedTask(ev).value.id && "task-of-" + ev.id in base.tasks
              && Route(db, st, ev) == RouteTask(base, st, ev, base.tasks["task-of-" + ev.id])
    ensures ev.kind != IssuesOpened && Get(ev.payload, "task_id") != Null ==>
              Route(db, st, ev) == Committed(Processed(db, ev.id), Report(None, None, None, {}, Some(TaskNotFound)))
  {
    var ref := TaskRefOf(ev.payload);
    if ref.Ref? { NamesIsRef(ev.payload, ref.id); }
  }

  // What holds of the database with the new row holds of the one without it.
  lemma FromBase(db: Db, base: Db, r: Routed, ev: Event, st: Settings, newborn: Task, after: Task, writes: seq<Emit>)
    requires base == db.(tasks := db.tasks[newborn.id := newborn]) && after.id == newborn.id
    requires Commits(base, r, ev, st, New, after, writes)
    ensures Commits(db, r, ev, st, New, after, writes)
  {
    assert base.tasks[after.id := after] == db.tasks[after.id := after];
  }

  // Any other event that names no stored task is skipped, and one that the tasks table cannot be asked
  // about is rolled back.
  lemma UnnamedEvent(db: Db, st: Settings, ev: Event)
    requires DbOk(db) && Get(ev.payload, "task_id") != Null
    ensures var r, v := Route(db, st, ev), Get(ev.payload, "task_id");
            && (v.List? || v.Obj? ==> r.RolledBack?)
            && (NamesNone(db, ev) && ev.kind != IssuesOpened ==> Skips(db, r, ev, None, TaskNotFound))
  {
    ProcessedMarks(db, ev.id);
    if NamesNone(db, ev) { NobodyNamed(db, st, ev); }
  }

  // ---- system events

  // An unlock of a branch makes its oldest active waiter its queued head; a retry of the system and an
  // unlock without a branch only mark their event.
  lemma AdminEvent(db: Db, st: Settings, ev: Event)
    requires W.OrdersUnique(db.waiters) && Get(ev.payload, "task_id") == Null
    requires ev.kind == Unlock || ev.kind == RetrySystem
    ensures var r := Route(db, st, ev);
            && r.Committed? && r.report.skipped == None && Marks(db.inbox, r.db.inbox, ev.id)
            && r.db == db.(inbox := r.db.inbox, waiters := r.db.waiters)
            && (ev.kind == RetrySystem || Get(ev.payload, "branch") == Null ==> r.db.waiters == db.waiters)
            && (ev.kind == Unlock && Get(ev.payload, "branch") != Null ==>
                  UnlocksBranch(db.waiters, r.db.waiters, Text(ev.payload["branch"]), r.report.taskId))
  {
    ProcessedMarks(db.(waiters := Route(db, st, ev).db.waiters), ev.id);
    if ev.kind == Unlock && Get(ev.payload, "branch") != Null {
      UnlockRequeues(db.waiters, Text(ev.payload["branch"]));
    }
  }

  ghost predicate UnlocksBranch(q: W.Queue, q': W.Queue, branch: string, head: Option<string>) {
    var active := {W.Leased, W.Queued};
    && q'.Keys == q.Keys
    && (forall p :: p in q && !W.IsFirst(q, branch, active, p) ==> q'[p] == q[p])
    && ((forall p :: !W.Waits(q, branch, active, p)) ==> head == None)
    && ((exists p :: W.Waits(q, branch, active, p)) ==>
          exists f :: W.IsFirst(q, branch, active, f) && head == Some(f.taskId)
            && q'[f] == W.Waiter(q[f].order, W.Queued) && W.QueuedHead(q', branch) == Some(f))
  }

  lemma UnlockRequeues(q: W.Queue, branch: string)
    requires W.OrdersUnique(q)
    ensures var head := W.First(q, branch, {W.Leased, W.Queued});
            UnlocksBranch(q, W.Requeued(q, branch), branch, if head.None? then None else Some(head.value.taskId))
  {
    var active := {W.Leased, W.Queued};
    W.RequeueOldestActive(q, branch);
    if p :| W.Waits(q, branch, active, p) {
      W.FirstExists(q, branch, active, p);
      var f :| W.IsFirst(q, branch, active, f) && W.QueuedHead(W.Requeued(q, branch), branch) == Some(f);
      W.FirstIs(q, branch, active, f);
    }
  }
}
