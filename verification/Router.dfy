/**
 Router.run_once (router/router.py): one inbox event is routed in one transaction, which either
 commits a task update, a state_changed row, outbox rows and the processed mark, or rolls back.
 */
module Router {
  import opened Common
  import opened Events
  import opened Guards
  import opened StateMachine
  import opened Transitions
  import O = Outbox
  import W = Waiters

  datatype InboxRow = InboxRow(event: Event, processed: bool)

  // A state_changed row of system_events; the reason that handlers give is always the event's type.
  datatype StateChanged = StateChanged(taskId: string, from: TaskState, to: TaskState, reason: EventType)

  datatype Db = Db(tasks: map<string, Task>, plans: map<string, Plan>, inbox: map<string, InboxRow>,
                   outbox: O.Table, changes: seq<StateChanged>, waiters: W.Queue)

  datatype Skip = TaskNotFound | NoTransition | NoGuardMatched

  // RouterResult
  datatype Report = Report(taskId: Option<string>, from: Option<TaskState>, to: Option<TaskState>, outboxIds: set<nat>,
      skipped: Option<Skip>)

  // Either a committed database and a report, or a raised exception after ROLLBACK.
  datatype Routed = Committed(db: Db, report: Report) | RolledBack

  function LatestPlan(db: Db, taskId: string): Option<Plan> {
    if taskId in db.plans then Some(db.plans[taskId]) else None
  }

  // mark_processed
  function Processed(db: Db, eventId: string): Db {
    if eventId in db.inbox then db.(inbox := db.inbox[eventId := db.inbox[eventId].(processed := true)]) else db
  }

  // new_task_id_from_event, an injective stand-in for the digest
  function TaskIdFromEvent(eventId: string): string {
    "task-of-" + eventId
  }

  // payload["task_id"] as a key of the tasks table
  datatype TaskRef = NoRef | Ref(id: string) | Unbindable

  function TaskRefOf(p: Payload): TaskRef {
    match Get(p, "task_id")
    case Null => NoRef
    case Str(s) => Ref(s)
    case Num(n) => Ref(Decimal(n))
    case Bool(b) => Ref(if b then "1" else "0")
    case Instant(_) => NoRef
    case List(_) => Unbindable
    case Obj(_) => Unbindable
  }

  predicate IsAdminEvent(ev: Event) {
    (ev.kind == Unlock || ev.kind == RetrySystem) && Get(ev.payload, "task_id") == Null
  }

  function FieldOf(v: Value, key: string): Value {
    if v.Obj? then Get(v.fields, key) else Null
  }

  function DerivedLease(ev: Event): Option<string> {
    var p := ev.payload;
    var direct := Get(p, "lease_branch");
    var base := Either(Get(p, "base_branch"), Get(p, "target_branch"));
    var issue := FieldOf(Get(p, "raw"), "issue");
    if direct != Null || ev.source != Forgejo then OptText(direct)
    else if base != Null then OptText(base)
    else if issue.Obj? then OptText(Either(Get(issue.fields, "base_branch"), Get(issue.fields, "target_branch")))
    else None
  }

  // The row of upsert_task_on_create; None where _derive_task_principal raises.
  function CreatedTask(ev: Event): Option<Task> {
    var p := ev.payload;
    var actor := Get(p, "actor");
    var branches := Branches(DerivedLease(ev), OptText(Get(p, "feature_branch")), OptText(Get(p, "worktree_path")));
    var issue := OptText(Either(Get(p, "source_issue_id"), Get(p, "issue_id")));
    if ev.source == Internal then None
    else
      var requestedBy :=
        match ev.source
        case Forgejo => "forgejo:" + Text(GetOr(p, "sender_login", Str("unknown")))
        case Discord => "discord:" + Text(actor)
        case _ => "cli:" + Text(GetOr(p, "actor", Str("unknown")));
      Some(Task(TaskIdFromEvent(ev.id), issue, New, 0, false, false, None, branches, requestedBy,
                if ev.source == Discord then OptText(actor) else None))
  }

  // ON CONFLICT(task_id) DO NOTHING
  function WithTask(db: Db, t: Task): Db {
    if t.id in db.tasks then db else db.(tasks := db.tasks[t.id := t])
  }

  function OutboxIds(t: O.Table, eventId: string): set<nat> {
    set id | id in t.rows && t.rows[id].origin == eventId
  }

  function Skipped(db: Db, ev: Event, taskId: Option<string>, from: Option<TaskState>, why: Skip): Routed {
    Committed(Processed(db, ev.id), Report(taskId, from, None, {}, Some(why)))
  }

  // The writes of the selected handler and the commit.
  function Applied(db: Db, ctx: Ctx, spec: Spec): Routed {
    var c := Handle(ctx, spec.handler);
    var after := Bumped(ctx.task, c);
    var outbox := EmitAll(db.outbox, ctx, after, c.emits);
    var db' := db.(tasks := db.tasks[ctx.task.id := after],
                   changes := db.changes + [StateChanged(ctx.task.id, ctx.task.state, c.state, ctx.event.kind)],
                   outbox := outbox);
    Committed(Processed(db', ctx.event.id),
              Report(Some(ctx.task.id), Some(ctx.task.state), Some(ToState(ctx, spec.to)),
                  OutboxIds(outbox, ctx.event.id), None))
  }

  // From a task that was found or created on.
  function RouteTask(db: Db, st: Settings, ev: Event, task: Task): Routed {
    var specs := Specs(task.state, ev.kind);
    var ctx := Ctx(task, ev, LatestPlan(db, task.id), st);
    if specs == [] then Skipped(db, ev, Some(task.id), Some(task.state), NoTransition)
    else match Choose(ctx, specs)
      case GuardRaised => RolledBack
      case Unmatched => Skipped(db, ev, Some(task.id), Some(task.state), NoGuardMatched)
      case Picked(spec) => Applied(db, ctx, spec)
  }

  // _handle_system_admin_event
  ghost function RouteAdmin(db: Db, ev: Event): Routed {
    var branch := Get(ev.payload, "branch");
    if ev.kind == Unlock && branch != Null then
      var head := W.First(db.waiters, Text(branch), {W.Leased, W.Queued});
      Committed(Processed(db.(waiters := W.Requeued(db.waiters, Text(branch))), ev.id),
                Report(if head.None? then None else Some(head.value.taskId), None, None, {}, None))
    else Committed(Processed(db, ev.id), Report(None, None, None, {}, None))
  }

  ghost function Route(db: Db, st: Settings, ev: Event): Routed {
    if IsAdminEvent(ev) then RouteAdmin(db, ev)
    else
      var ref := TaskRefOf(ev.payload);
      if ref.Unbindable? then RolledBack
      else if ref.Ref? && ref.id in db.tasks then RouteTask(db, st, ev, db.tasks[ref.id])
      else if ev.kind != IssuesOpened then Skipped(db, ev, None, None, TaskNotFound)
      else match CreatedTask(ev)
        case None => RolledBack
        case Some(t) =>
          var db' := WithTask(db, t);
          RouteTask(db', st, ev, db'.tasks[t.id])
  }

  // What a raised exception leaves: the database as it was.
  function DbAfter(db: Db, r: Routed): Db {
    match r case Committed(db', _) => db' case RolledBack => db
  }

  class RelayDb {
    var tasks: map<string, Task>
    var plans: map<string, Plan>
    var inbox: map<string, InboxRow>
    var outbox: O.Table
    var changes: seq<StateChanged>
    var waiters: W.Queue

    function Contents(): Db
      reads this
    {
      Db(tasks, plans, inbox, outbox, changes, waiters)
    }

    constructor ()
      ensures Contents() == Db(map[], map[], map[], O.EmptyTable(), [], map[])
    {
      tasks, plans, inbox, outbox, changes, waiters := map[], map[], map[], O.EmptyTable(), [], map[];
    }

    // ROLLBACK
    method Restore(db: Db)
      modifies this
      ensures Contents() == db
    {
      tasks, plans, inbox, outbox, changes, waiters := db.tasks, db.plans, db.inbox, db.outbox, db.changes, db.waiters;
    }

    method MarkProcessed(eventId: string)
      modifies this`inbox
      ensures Contents() == Processed(old(Contents()), eventId)
    {
      if eventId in inbox {
        inbox := inbox[eventId := inbox[eventId].(processed := true)];
      }
    }

    // The handler: bump_state, then the outbox rows one by one.
    method ApplyHandler(ctx: Ctx, c: Change)
      modifies this`tasks, this`changes, this`outbox
      ensures tasks == old(tasks)[ctx.task.id := Bumped(ctx.task, c)]
      ensures changes == old(changes) + [StateChanged(ctx.task.id, ctx.task.state, c.state, ctx.event.kind)]
      ensures outbox == EmitAll(old(outbox), ctx, Bumped(ctx.task, c), c.emits)
    {
      var after := Bumped(ctx.task, c);
      tasks := tasks[ctx.task.id := after];
      changes := changes + [StateChanged(ctx.task.id, ctx.task.state, c.state, ctx.event.kind)];
      var i := 0;
      while i < |c.emits|
        invariant 0 <= i <= |c.emits|
        invariant EmitAll(outbox, ctx, after, c.emits[i..]) == EmitAll(old(outbox), ctx, after, c.emits)
        invariant tasks == old(tasks)[ctx.task.id := after]
        invariant changes == old(changes) + [StateChanged(ctx.task.id, ctx.task.state, c.state, ctx.event.kind)]
      {
        assert c.emits[i..][0] == c.emits[i] && c.emits[i..][1..] == c.emits[i + 1..];
        outbox := O.Insert(outbox, DraftOf(ctx, after, c.emits[i]));
        i := i + 1;
      }
      assert c.emits[i..] == [];
    }

    // The guard loop of run_once.
    method SelectSpec(ctx: Ctx, specs: seq<Spec>) returns (pick: Pick)
      ensures pick == Choose(ctx, specs)
    {
      var i := 0;
      while i < |specs|
        invariant 0 <= i <= |specs|
        invariant Choose(ctx, specs[i..]) == Choose(ctx, specs)
      {
        assert specs[i..][0] == specs[i] && specs[i..][1..] == specs[i + 1..];
        var v := Eval(ctx, specs[i].guard);
        if v == Raises {
          return GuardRaised;
        }
        if v == Holds {
          return Picked(specs[i]);
        }
        i := i + 1;
      }
      pick := Unmatched;
    }

    // The part of run_once after a task was found or created; `before` is the state at BEGIN.
    method RunOnTask(st: Settings, ev: Event, task: Task, before: Db) returns (r: Option<Report>)
      modifies this
      ensures RouteTask(old(Contents()), st, ev, task).RolledBack? ==> r.None? && Contents() == before
      ensures RouteTask(old(Contents()), st, ev, task).Committed? ==>
                r == Some(RouteTask(old(Contents()), st, ev, task).report)
                    && Contents() == RouteTask(old(Contents()), st, ev, task).db
    {
      var specs := Specs(task.state, ev.kind);
      if specs == [] {
        MarkProcessed(ev.id);
        return Some(Report(Some(task.id), Some(task.state), None, {}, Some(NoTransition)));
      }
      var ctx := Ctx(task, ev, LatestPlan(Contents(), task.id), st);
      var pick := SelectSpec(ctx, specs);
      match pick
      case GuardRaised =>
        Restore(before);
        return None;
      case Unmatched =>
        MarkProcessed(ev.id);
        return Some(Report(Some(task.id), Some(task.state), None, {}, Some(NoGuardMatched)));
      case Picked(spec) =>
        ApplyHandler(ctx, Handle(ctx, spec.handler));
        MarkProcessed(ev.id);
        return Some(Report(Some(task.id), Some(task.state), Some(ToState(ctx, spec.to)), OutboxIds(outbox, ev.id),
            None));
    }

    // None is the exception that run_once re-raises.
    method RunOnce(st: Settings, ev: Event) returns (r: Option<Report>)
      requires W.OrdersUnique(waiters)
      modifies this
      ensures Contents() == DbAfter(old(Contents()), Route(old(Contents()), st, ev))
      ensures r == match Route(old(Contents()), st, ev)
        case Committed(_, report) => Some(report)
        case RolledBack => None
    {
      var before := Contents();
      if IsAdminEvent(ev) {
        r := RunAdmin(ev);
        return;
      }
      var ref := TaskRefOf(ev.payload);
      if ref.Unbindable? {
        Restore(before);
        return None;
      }
      if ref.Ref? && ref.id in tasks {
        r := RunOnTask(st, ev, tasks[ref.id], before);
        return;
      }
      if ev.kind != IssuesOpened {
        MarkProcessed(ev.id);
        return Some(Report(None, None, None, {}, Some(TaskNotFound)));
      }
      var created := CreatedTask(ev);
      if created.None? {
        Restore(before);
        return None;
      }
      if created.value.id !in tasks {
        tasks := tasks[created.value.id := created.value];
      }
      assert Contents() == WithTask(before, created.value);
      r := RunOnTask(st, ev, tasks[created.value.id], before);
    }

    method RunAdmin(ev: Event) returns (r: Option<Report>)
      requires W.OrdersUnique(waiters)
      modifies this
      ensures Contents() == RouteAdmin(old(Contents()), ev).db
      ensures r == Some(RouteAdmin(old(Contents()), ev).report)
    {
      var taskId: Option<string> := None;
      var branch := Get(ev.payload, "branch");
      if ev.kind == Unlock && branch != Null {
        var table := new W.WaiterTable();
        table.rows := waiters;
        taskId := table.RequeueBranchHead(Text(branch));
        waiters := table.rows;
      }
      MarkProcessed(ev.id);
      r := Some(Report(taskId, None, None, {}, None));
    }
  }
}
