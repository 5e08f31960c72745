// What every run of the router guarantees.
module RouterTheorems {
  import opened Common
  import opened Events
  import opened Guards
  import opened StateMachine
  import opened Transitions
  import opened Router
  import opened HandlerFacts
  import opened RouterRuns
  import O = Outbox
  import R = Rebuild

  // Changes of the inbox, the plans and the queue are beside the invariant.
  lemma SameTasksKeeps(db: Db, db': Db)
    requires DbSound(db) && db'.tasks == db.tasks && db'.outbox == db.outbox && db'.changes == db.changes
    ensures DbSound(db')
    ensures DbOk(db) ==> DbOk(db')
  {
    forall id ensures TaskSound(db', id) { assert TaskSound(db, id); }
    forall rid ensures RowSound(db', rid) { assert RowSound(db, rid); }
    forall id ensures Settled(db, id) ==> Settled(db', id) { }
  }

  // A task row that run_once has just inserted.
  lemma CreatedSound(db: Db, t: Task)
    requires DbSound(db) && t.id !in db.tasks
    requires t.rev == 0 && !t.critical && !t.gate && t.resume == None && t.state == New
    ensures DbSound(WithTask(db, t))
  {
    var db' := WithTask(db, t);
    forall rid ensures RowSound(db', rid) { assert RowSound(db, rid); }
    forall id ensures TaskSound(db', id) { assert TaskSound(db, id); }
  }

  // ---- one routed event

  lemma PickedSpec(db: Db, st: Settings, ev: Event, task: Task) returns (ctx: Ctx, spec: Spec)
    requires TookEffect(RouteTask(db, st, ev, task))
    ensures ctx == Ctx(task, ev, LatestPlan(db, task.id), st) && Fires(ctx, spec)
    ensures RouteTask(db, st, ev, task) == Applied(db, ctx, spec)
  {
    ctx := Ctx(task, ev, LatestPlan(db, task.id), st);
    var specs := Specs(task.state, ev.kind);
    ChosenHolds(ctx, specs);
    spec := Choose(ctx, specs).spec;
  }

  // The task row and the database that an effective event is applied to: stored, or just created.
  lemma EffectiveBase(db: Db, st: Settings, ev: Event) returns (task: Task)
    requires DbOk(db) && TookEffect(Route(db, st, ev))
    ensures Route(db, st, ev) == RouteTask(WithTask(db, task), st, ev, task)
    ensures task.id in db.tasks ==>
      db.tasks[task.id] == task && (TaskRefOf(ev.payload) == Ref(task.id) || ev.kind == IssuesOpened)
    ensures task.id !in db.tasks ==> ev.kind == IssuesOpened && CreatedTask(ev) == Some(task)
  {
    var ref := TaskRefOf(ev.payload);
    if ref.Ref? && ref.id in db.tasks {
      task := db.tasks[ref.id];
      assert TaskSound(db, ref.id);
    } else {
      var t := CreatedTask(ev).value;
      task := WithTask(db, t).tasks[t.id];
      assert TaskSound(db, t.id);
    }
  }

  // An event that takes effect applies one spec that fires.
  lemma Effective(db: Db, st: Settings, ev: Event) returns (base: Db, ctx: Ctx, spec: Spec)
    requires DbOk(db) && TookEffect(Route(db, st, ev))
    ensures Route(db, st, ev) == Applied(base, ctx, spec) && Ready(base, ctx) && Fires(ctx, spec)
    ensures base == WithTask(db, ctx.task) && ctx == Ctx(ctx.task, ev, LatestPlan(db, ctx.task.id), st)
    ensures var t := ctx.task;
            if t.id in db.tasks then
              db.tasks[t.id] == t && (TaskRefOf(ev.payload) == Ref(t.id) || ev.kind == IssuesOpened)
            else ev.kind == IssuesOpened && CreatedTask(ev) == Some(t)
  {
    var t := EffectiveBase(db, st, ev);
    base := WithTask(db, t);
    ctx, spec := PickedSpec(base, st, ev, t);
    if t.id in db.tasks { assert Settled(db, t.id); } else { CreatedSound(db, t); }
  }

  // A task that issues.opened has just created is started at once.
  lemma CreationStarts(db: Db, st: Settings, ev: Event, t: Task)
    requires ev.kind == IssuesOpened && t.state == New && t.id in db.tasks
    ensures var r := RouteTask(db, st, ev, t);
            TookEffect(r) && r.report.taskId == Some(t.id) && r.db.tasks[t.id].state == Planning
  {
    var specs := Specs(New, IssuesOpened);
    assert specs == [Spec(Always, To(Planning), NewToPlanning)];
    var ctx := Ctx(t, ev, LatestPlan(db, t.id), st);
    assert Choose(ctx, specs) == Picked(specs[0]);
  }

  // Any other event changes neither tasks nor outbox nor the log of state changes.
  lemma Ineffective(db: Db, st: Settings, ev: Event)
    requires DbOk(db) && !TookEffect(Route(db, st, ev))
    ensures var db' := DbAfter(db, Route(db, st, ev));
            db'.tasks == db.tasks && db'.outbox == db.outbox && db'.changes == db.changes
  {
    var ref := TaskRefOf(ev.payload);
    if IsAdminEvent(ev) || ref.Unbindable? {
    } else if ref.Ref? && ref.id in db.tasks {
      SkippedTask(db, st, ev, db.tasks[ref.id]);
    } else if ev.kind == IssuesOpened && CreatedTask(ev).Some? {
      var t := CreatedTask(ev).value;
      if t.id !in db.tasks { CreationStarts(WithTask(db, t), st, ev, t); }
      SkippedTask(WithTask(db, t), st, ev, WithTask(db, t).tasks[t.id]);
    }
  }

  lemma SkippedTask(db: Db, st: Settings, ev: Event, task: Task)
    requires !TookEffect(RouteTask(db, st, ev, task))
    ensures var r := RouteTask(db, st, ev, task);
            r.Committed? ==> r.db.tasks == db.tasks && r.db.outbox == db.outbox && r.db.changes == db.changes
  {
  }

  // Committed or rolled back, a routed event leaves a sound database.
  lemma RouteKeeps(db: Db, st: Settings, ev: Event)
    requires DbOk(db)
    ensures DbOk(DbAfter(db, Route(db, st, ev)))
  {
    if TookEffect(Route(db, st, ev)) {
      var base, ctx, spec := Effective(db, st, ev);
      forall id | id != ctx.task.id ensures Settled(base, id) { assert Settled(db, id); }
      AppliedKeeps(base, ctx, spec);
    } else {
      Ineffective(db, st, ev);
      SameTasksKeeps(db, DbAfter(db, Route(db, st, ev)));
    }
  }

  // ---- the other steps

  lemma DeliverKeeps(db: Db, t': O.Table)
    requires DbOk(db) && Delivers(db.outbox, t')
    ensures DbOk(db.(outbox := t'))
  {
    var db' := db.(outbox := t');
    forall id ensures TaskSound(db', id) && Settled(db', id) { assert TaskSound(db, id) && Settled(db, id); }
    forall rid ensures RowSound(db', rid) { assert RowSound(db, rid); }
  }

  lemma RebuiltRow(t: O.Table, q: R.Request, rid: nat)
    requires O.TableOk(t)
    ensures var t' := R.Rebuilt(t, q);
            rid in t'.rows ==> (rid in t.rows && t'.rows[rid] == t.rows[rid])
                               || (rid >= t.nextId && t'.rows[rid] == O.FreshRow(R.SnapshotDraft(q)))
                               || (rid >= t.nextId && t'.rows[rid] == O.FreshRow(R.LabelDraft(q)))
    ensures rid in t.rows && t.rows[rid].lane.taskId != q.view.taskId ==>
      rid in R.Rebuilt(t, q).rows && R.Rebuilt(t, q).rows[rid] == t.rows[rid]
  {
    if rid in t.rows && t.rows[rid].lane.taskId != q.view.taskId { R.RowSurvives(t, q, rid); }
    assert O.RowOk(t, rid);
  }

  // A rebuild keeps the invariant however old its view is.
  lemma RebuildKeeps(db: Db, q: R.Request)
    requires DbOk(db) && ViewSound(db, q.view)
    ensures DbOk(db.(outbox := R.Rebuilt(db.outbox, q)))
  {
    var db' := db.(outbox := R.Rebuilt(db.outbox, q));
    R.OneRowPerCurrentKey(db.outbox, q);
    assert TaskSound(db, q.view.taskId);
    forall id ensures TaskSound(db', id) && Settled(db', id) { assert TaskSound(db, id) && Settled(db, id); }
    forall rid ensures RowSound(db', rid) { RebuiltRow(db.outbox, q, rid); assert RowSound(db, rid); }
  }

  // ---- what a process has read stays sound

  lemma RouteKeepsView(db: Db, st: Settings, ev: Event, v: R.View)
    requires DbOk(db) && ViewSound(db, v)
    ensures ViewSound(DbAfter(db, Route(db, st, ev)), v)
  {
    OthersUnchanged(db, st, ev, v.taskId);
    var r := Route(db, st, ev);
    if TookEffect(r) && r.report.taskId.value == v.taskId {
      var ctx, spec := FiredSpec(db, st, ev, v.taskId);
      assert TaskSound(db, v.taskId);
    }
  }

  lemma ApplyKeepsReading(st: Settings, r: Run, m: Move, op: string)
    requires RunOk(r)
    ensures ReadingOk(Apply(st, r, m), op)
  {
    assert ReadingOk(r, op);
    match m {
      case Ingest(_) =>
      case RouteNext(id) =>
        if op in r.readings && id in r.db.inbox { RouteKeepsView(r.db, st, r.db.inbox[id].event, r.readings[op].view); }
      case Abort(_) =>
      case StorePlan(_, _) =>
      case Deliver(_) =>
      case ReadTask(_, taskId) => assert TaskSound(r.db, taskId);
      case ReadPlan(_) =>
      case RebuildRows(_, _, _, _) =>
    }
  }

  // ---- runs

  ghost predicate EntryOk(r: Run, k: nat) {
    k < |r.applied| ==>
      && r.applied[k].eventId in r.db.inbox && r.db.inbox[r.applied[k].eventId].processed
      && forall j :: 0 <= j < |r.applied| && r.applied[j].eventId == r.applied[k].eventId ==> j == k
  }

  predicate Keyed(r: Run, id: string) {
    id in r.db.inbox ==> r.db.inbox[id].event.id == id
  }

  ghost predicate LedgerOk(r: Run, id: string) {
    Effects(r.applied, id) == Changes(r.db.changes, id)
  }

  // The k-th effective event wrote the k-th state_changed row.
  predicate Paired(r: Run, k: nat) {
    k < |r.applied| ==> k < |r.db.changes| && r.db.changes[k].taskId == r.applied[k].taskId
  }

  predicate ReadingOk(r: Run, op: string) {
    op in r.readings ==> ViewSound(r.db, r.readings[op].view)
  }

  ghost predicate RunOk(r: Run) {
    && DbOk(r.db)
    && (forall op :: ReadingOk(r, op))
    && |r.applied| == |r.db.changes|
    && (forall k :: Paired(r, k))
    && (forall k :: EntryOk(r, k))
    && (forall id :: Keyed(r, id))
    && (forall id :: LedgerOk(r, id))
  }

  lemma EffectsPlusOne(es: seq<Entry>, e: Entry, id: string)
    ensures Effects(es + [e], id) == Effects(es, id) + if e.taskId == id then 1 else 0
  {
    assert (es + [e])[..|es|] == es;
  }

  // A committed event is marked, and the inbox changes in nothing else.
  lemma RouteMarks(db: Db, st: Settings, ev: Event)
    ensures var r := Route(db, st, ev); r.Committed? ==> r.db.inbox == Processed(db, ev.id).inbox
  {
    var ref := TaskRefOf(ev.payload);
    if IsAdminEvent(ev) || ref.Unbindable? {
    } else if ref.Ref? && ref.id in db.tasks {
      TaskMarks(db, st, ev, db.tasks[ref.id]);
    } else if ev.kind == IssuesOpened && CreatedTask(ev).Some? {
      var t := CreatedTask(ev).value;
      TaskMarks(WithTask(db, t), st, ev, WithTask(db, t).tasks[t.id]);
    }
  }

  lemma TaskMarks(db: Db, st: Settings, ev: Event, task: Task)
    ensures var r := RouteTask(db, st, ev, task); r.Committed? ==> r.db.inbox == Processed(db, ev.id).inbox
  {
  }

  lemma StartOk()
    ensures RunOk(RouterRuns.Start())
  {
  }

  // What one routed event does to the logs and the inbox of a run; `own` is the task it took effect on.
  predicate Logged(r: Run, r': Run, eventId: string, own: Option<string>) {
    if own.Some? then
      && r'.applied == r.applied + [Entry(eventId, own.value)]
      && |r'.db.changes| == |r.db.changes| + 1 && r'.db.changes == r.db.changes + [r'.db.changes[|r.db.changes|]]
      && r'.db.changes[|r.db.changes|].taskId == own.value
      && r'.db.inbox == Processed(r.db, eventId).inbox
    else
      && r'.applied == r.applied && r'.db.changes == r.db.changes
      && (r'.db.inbox == r.db.inbox || r'.db.inbox == Processed(r.db, eventId).inbox)
  }

  lemma RouteLog(st: Settings, r: Run, eventId: string)
    requires RunOk(r) && eventId in r.db.inbox && !r.db.inbox[eventId].processed
    ensures var own := EffectiveTask(Route(r.db, st, r.db.inbox[eventId].event));
            Logged(r, Apply(st, r, RouteNext(eventId)), eventId, own)
  {
    var ev := r.db.inbox[eventId].event;
    assert Keyed(r, eventId);
    RouteMarks(r.db, st, ev);
    if TookEffect(Route(r.db, st, ev)) {
      var base, ctx, spec := Effective(r.db, st, ev);
      assert Applied(base, ctx, spec).report.taskId == Some(ctx.task.id);
    } else {
      Ineffective(r.db, st, ev);
    }
  }

  lemma RouteNextKeeps(st: Settings, r: Run, eventId: string)
    requires RunOk(r) && eventId in r.db.inbox && !r.db.inbox[eventId].processed
    ensures RunOk(Apply(st, r, RouteNext(eventId)))
  {
    var r' := Apply(st, r, RouteNext(eventId));
    RouteKeeps(r.db, st, r.db.inbox[eventId].event);
    RouteLog(st, r, eventId);
    LoggedKeeps(r, r', eventId, EffectiveTask(Route(r.db, st, r.db.inbox[eventId].event)));
    forall op ensures ReadingOk(r', op) { ApplyKeepsReading(st, r, RouteNext(eventId), op); }
  }

  lemma LoggedKeeps(r: Run, r': Run, eventId: string, own: Option<string>)
    requires RunOk(r) && eventId in r.db.inbox && !r.db.inbox[eventId].processed && Logged(r, r', eventId, own)
    ensures |r'.applied| == |r'.db.changes|
    ensures forall k :: Paired(r', k)
    ensures forall k :: EntryOk(r', k)
    ensures forall id :: Keyed(r', id)
    ensures forall id :: LedgerOk(r', id)
  {
    forall k ensures EntryOk(r', k) { LoggedEntry(r, r', eventId, own, k); }
    forall k: nat ensures Paired(r', k) { assert Paired(r, k); }
    forall id ensures Keyed(r', id) { assert Keyed(r, id); }
    forall id ensures LedgerOk(r', id) { LoggedLedger(r, r', eventId, own, id); }
  }

  lemma LoggedEntry(r: Run, r': Run, eventId: string, own: Option<string>, k: nat)
    requires RunOk(r) && eventId in r.db.inbox && !r.db.inbox[eventId].processed && Logged(r, r', eventId, own)
    ensures EntryOk(r', k)
  {
    assert forall j: nat :: j < |r.applied| ==> EntryOk(r, j) && r.applied[j].eventId != eventId;
  }

  lemma LoggedLedger(r: Run, r': Run, eventId: string, own: Option<string>, id: string)
    requires RunOk(r) && Logged(r, r', eventId, own)
    ensures LedgerOk(r', id)
  {
    assert LedgerOk(r, id);
    if own.Some? {
      ChangesPlusOne(r.db.changes, r'.db.changes[|r.db.changes|], id);
      EffectsPlusOne(r.applied, Entry(eventId, own.value), id);
    }
  }

  lemma ApplyKeeps(st: Settings, r: Run, m: Move)
    requires RunOk(r)
    ensures RunOk(Apply(st, r, m))
  {
    var r' := Apply(st, r, m);
    if m.RouteNext? && m.eventId in r.db.inbox && !r.db.inbox[m.eventId].processed {
      RouteNextKeeps(st, r, m.eventId);
    } else if r' != r {
      match m {
        case Ingest(ev) => SameTasksKeeps(r.db, r'.db);
        case RouteNext(_) =>
        case Abort(_) =>
        case StorePlan(_, _) => SameTasksKeeps(r.db, r'.db);
        case Deliver(t) => DeliverKeeps(r.db, t);
        case ReadTask(_, _) =>
        case ReadPlan(_) =>
        case RebuildRows(op, _, _, _) =>
          assert ReadingOk(r, op);
          RebuildKeeps(r.db, RebuildRequest(st, r, m));
      }
      forall op ensures ReadingOk(r', op) { ApplyKeepsReading(st, r, m, op); }
      forall k ensures EntryOk(r', k) { assert EntryOk(r, k); }
      forall k ensures Paired(r', k) { assert Paired(r, k); }
      forall id ensures Keyed(r', id) { assert Keyed(r, id); }
      forall id ensures LedgerOk(r', id) { assert LedgerOk(r, id); }
    }
  }

  lemma {:induction false} PlayKeeps(st: Settings, r: Run, moves: seq<Move>)
    requires RunOk(r)
    ensures RunOk(Play(st, r, moves))
    decreases |moves|
  {
    if moves != [] {
      ApplyKeeps(st, r, moves[0]);
      PlayKeeps(st, Apply(st, r, moves[0]), moves[1..]);
    }
  }

  ghost function Reached(st: Settings, moves: seq<Move>): Run {
    Play(st, RouterRuns.Start(), moves)
  }

  lemma ReachedOk(st: Settings, moves: seq<Move>)
    ensures RunOk(Reached(st, moves))
  {
    StartOk();
    PlayKeeps(st, RouterRuns.Start(), moves);
  }

  // ---- the router ledger

  // No inbox event takes effect twice, those that did are processed, and each task's revision is
  // the number of events that took effect on it and the number of its state_changed rows.
  lemma Ledger(st: Settings, moves: seq<Move>, id: string)
    ensures var r := Reached(st, moves);
            && (forall j, k :: 0 <= j < k < |r.applied| ==> r.applied[j].eventId != r.applied[k].eventId)
            && (forall k :: 0 <= k < |r.applied| ==>
                 r.applied[k].eventId in r.db.inbox && r.db.inbox[r.applied[k].eventId].processed)
            && |r.applied| == |r.db.changes|
            && (forall k :: 0 <= k < |r.applied| ==> r.db.changes[k].taskId == r.applied[k].taskId)
            && (id in r.db.tasks ==> r.db.tasks[id].rev == Effects(r.applied, id) == Changes(r.db.changes, id))
            && (id !in r.db.tasks ==> Effects(r.applied, id) == 0)
  {
    ReachedOk(st, moves);
    var r := Reached(st, moves);
    assert TaskSound(r.db, id) && LedgerOk(r, id);
    forall k | 0 <= k < |r.applied|
      ensures r.applied[k].eventId in r.db.inbox && r.db.inbox[r.applied[k].eventId].processed
      ensures forall j :: 0 <= j < k ==> r.applied[j].eventId != r.applied[k].eventId
      ensures r.db.changes[k].taskId == r.applied[k].taskId
    {
      assert EntryOk(r, k) && Paired(r, k);
    }
  }

  // Whatever an event does, every task but its own keeps its row, and the only task row that can
  // appear is one that issues.opened creates and starts.
  lemma OthersUnchanged(db: Db, st: Settings, ev: Event, other: string)
    requires DbOk(db)
    ensures var r := Route(db, st, ev);
            var db' := DbAfter(db, r);
            && (other in db.tasks ==> other in db'.tasks)
            && (other in db'.tasks && !(TookEffect(r) && r.report.taskId.value == other) ==>
                  other in db.tasks && db'.tasks[other] == db.tasks[other])
            && (other in db'.tasks && other !in db.tasks ==>
                 ev.kind == IssuesOpened && db'.tasks[other].state == Planning)
  {
    if TookEffect(Route(db, st, ev)) { OwnTaskOnly(db, st, ev); } else { Ineffective(db, st, ev); }
  }

  // An effective event writes one task row.
  lemma OwnTaskOnly(db: Db, st: Settings, ev: Event)
    requires DbOk(db) && TookEffect(Route(db, st, ev))
    ensures var id, db' := Route(db, st, ev).report.taskId.value, Route(db, st, ev).db;
            && id in db'.tasks && db'.tasks == db.tasks[id := db'.tasks[id]]
            && (id !in db.tasks ==> ev.kind == IssuesOpened && db'.tasks[id].state == Planning)
  {
    var base, ctx, spec := Effective(db, st, ev);
    AppliedWrites(base, ctx, spec);
    CreatedThenWritten(db, ctx.task, Bumped(ctx.task, Handle(ctx, spec.handler)));
    if ctx.task.id !in db.tasks { NewTaskPlans(ctx, spec); }
  }

  lemma AppliedWrites(db: Db, ctx: Ctx, spec: Spec)
    ensures var r := Applied(db, ctx, spec);
            && r.report.taskId == Some(ctx.task.id)
            && r.db.tasks == db.tasks[ctx.task.id := Bumped(ctx.task, Handle(ctx, spec.handler))]
  {
  }

  lemma CreatedThenWritten(db: Db, t: Task, after: Task)
    ensures WithTask(db, t).tasks[t.id := after] == db.tasks[t.id := after]
  {
  }

  lemma NewTaskPlans(ctx: Ctx, spec: Spec)
    requires Fires(ctx, spec) && ctx.task.state == New && ctx.event.kind == IssuesOpened
    ensures spec == Spec(Always, To(Planning), NewToPlanning) && Handle(ctx, spec.handler).state == Planning
  {
    assert Specs(New, IssuesOpened) == [Spec(Always, To(Planning), NewToPlanning)];
  }

  // A row as an event has just written it.
  predicate Written(row: O.Row, taskId: string, eventId: string) {
    row.sent.None? && row.claim.None? && row.lane.taskId == taskId && row.origin == eventId
  }

  // Row rid before and after an event of task taskId, None where nothing took effect.
  predicate OnlyGrows(t: O.Table, t': O.Table, taskId: Option<string>, eventId: string, rid: nat) {
    && (rid in t.rows ==> rid in t'.rows && t'.rows[rid] == t.rows[rid])
    && (rid in t'.rows && rid !in t.rows ==> taskId.Some? && Written(t'.rows[rid], taskId.value, eventId))
    && t'.cursors == t.cursors && t'.nextId >= t.nextId
  }

  function EffectiveTask(r: Routed): Option<string> {
    if TookEffect(r) then r.report.taskId else None
  }

  // No event changes an outbox row; the rows it adds are unsent and name it and its task.
  lemma OutboxOnlyGrows(db: Db, st: Settings, ev: Event, rid: nat)
    requires DbOk(db)
    ensures var r := Route(db, st, ev); OnlyGrows(db.outbox, DbAfter(db, r).outbox, EffectiveTask(r), ev.id, rid)
  {
    if TookEffect(Route(db, st, ev)) {
      var base, ctx, spec := Effective(db, st, ev);
      AppliedRow(base, ctx, spec, rid);
    } else {
      Ineffective(db, st, ev);
    }
  }

  lemma AppliedRow(db: Db, ctx: Ctx, spec: Spec, rid: nat)
    requires Ready(db, ctx) && Fires(ctx, spec)
    ensures OnlyGrows(db.outbox, Applied(db, ctx, spec).db.outbox, Some(ctx.task.id), ctx.event.id, rid)
  {
    AppliedOutbox(db, ctx, spec, rid);
    var t', after := Applied(db, ctx, spec).db.outbox, Bumped(ctx.task, Handle(ctx, spec.handler));
    if rid in t'.rows && rid !in db.outbox.rows {
      var e :| e in Handle(ctx, spec.handler).emits && t'.rows[rid] == O.FreshRow(DraftOf(ctx, after, e));
      DraftShape(ctx, after, e);
    }
  }

  // run_once itself does not look at the processed mark: handing it one event twice applies it twice.
  lemma SecondRunAppliesAgain(st: Settings, db: Db, ev: Event, id: string)
    requires ev.kind == CriticalOn && ev.payload == map["task_id" := Str(id)]
    requires id in db.tasks && db.tasks[id].id == id && db.tasks[id].state == Planning
    ensures var once := DbAfter(db, Route(db, st, ev));
            var twice := DbAfter(once, Route(once, st, ev));
            id in twice.tasks && twice.tasks[id].rev == db.tasks[id].rev + 2
  {
    assert TaskRefOf(ev.payload) == Ref(id);
    CriticalOnRuns(st, db, ev, id);
    CriticalOnRuns(st, DbAfter(db, Route(db, st, ev)), ev, id);
  }

  lemma CriticalOnRuns(st: Settings, db: Db, ev: Event, id: string)
    requires ev.kind == CriticalOn && TaskRefOf(ev.payload) == Ref(id) && Get(ev.payload, "task_id") == Str(id)
    requires id in db.tasks && db.tasks[id].id == id && db.tasks[id].state == Planning
    ensures var after := DbAfter(db, Route(db, st, ev));
            id in after.tasks && after.tasks[id].id == id && after.tasks[id].state == Planning
                && after.tasks[id].rev == db.tasks[id].rev + 1
  {
    var specs := Specs(Planning, CriticalOn);
    assert specs == [Spec(Always, To(Planning), CriticalOnSameState)];
    var ctx := Ctx(db.tasks[id], ev, LatestPlan(db, id), st);
    assert Choose(ctx, specs) == Picked(specs[0]);
  }

  // ---- reachable states

  // In every reachable database: no task is new; a degraded task resumes at planning or
  // implementing; only degraded and cancelled tasks have a resume target; a state that work leads
  // to, and a raised gate, imply that the task has been in implementing.
  lemma ReachableTasks(st: Settings, moves: seq<Move>, id: string)
    requires id in Reached(st, moves).db.tasks
    ensures var r := Reached(st, moves);
            var t := r.db.tasks[id];
            && t.state != New
            && (t.state == SystemDegraded ==> t.resume == Some(Planning) || t.resume == Some(Implementing))
            && (t.resume.Some? ==> t.state == SystemDegraded || t.state == Cancelled)
            && (t.state == Done || t.gate ==> Visited(r.db.changes, id, Implementing))
  {
    ReachedOk(st, moves);
    assert TaskSound(Reached(st, moves).db, id) && Settled(Reached(st, moves).db, id);
  }

  // One routed event, seen from one task: a done task keeps its whole row, a cancelled one its
  // state; a degraded task leaves only by cancellation or by recovery to planning or plan_approved.
  lemma EventOnTask(st: Settings, moves: seq<Move>, ev: Event, id: string)
    requires id in Reached(st, moves).db.tasks
    ensures var db := Reached(st, moves).db;
            var db' := DbAfter(db, Route(db, st, ev));
            id in db'.tasks &&
            var t, t' := db.tasks[id], db'.tasks[id];
            && (t.state == Done ==> t' == t)
            && (t.state == Cancelled ==> t'.state == Cancelled)
            && (t.state == SystemDegraded ==>
                  t'.state == SystemDegraded || t'.state == Cancelled
                  || (ev.kind == SystemRecovered && t'.resume.None?
                      && t'.state == (if t.resume == Some(Planning) then Planning else PlanApproved)))
  {
    ReachedOk(st, moves);
    var db := Reached(st, moves).db;
    OthersUnchanged(db, st, ev, id);
    var r := Route(db, st, ev);
    if TookEffect(r) && r.report.taskId.value == id {
      var ctx, spec := FiredSpec(db, st, ev, id);
      assert TaskSound(db, id);
      AppliedWrites(db, ctx, spec);
      FiredOnTask(ctx, spec);
    }
  }

  lemma FiredOnTask(ctx: Ctx, spec: Spec)
    requires Fires(ctx, spec)
    requires ctx.task.state == SystemDegraded ==>
      ctx.task.resume == Some(Planning) || ctx.task.resume == Some(Implementing)
    ensures var t, t' := ctx.task, Bumped(ctx.task, Handle(ctx, spec.handler));
            && t.state != Done
            && (t.state == Cancelled ==> t'.state == Cancelled)
            && (t.state == SystemDegraded ==>
                  t'.state == SystemDegraded || t'.state == Cancelled
                  || (ctx.event.kind == SystemRecovered && t'.resume.None?
                      && t'.state == (if t.resume == Some(Planning) then Planning else PlanApproved)))
  {
    StateFacts(ctx, spec);
    ResumeFacts(ctx, spec);
  }

  // An event that takes effect on an existing task does so through a spec of the table that fires.
  lemma FiredSpec(db: Db, st: Settings, ev: Event, id: string) returns (ctx: Ctx, spec: Spec)
    requires DbOk(db) && id in db.tasks
    requires TookEffect(Route(db, st, ev)) && Route(db, st, ev).report.taskId.value == id
    ensures ctx == Ctx(db.tasks[id], ev, LatestPlan(db, id), st) && Fires(ctx, spec)
    ensures Route(db, st, ev) == Applied(db, ctx, spec)
  {
    var base;
    base, ctx, spec := Effective(db, st, ev);
    assert Applied(base, ctx, spec).report.taskId == Some(ctx.task.id);
  }

  // The state that the router reports is the state the row then has.
  lemma ReportedStateIsCommitted(db: Db, st: Settings, ev: Event)
    requires DbOk(db)
    ensures var r := Route(db, st, ev);
            TookEffect(r) ==>
              r.report.taskId.value in r.db.tasks && r.report.to == Some(r.db.tasks[r.report.taskId.value].state)
  {
    if TookEffect(Route(db, st, ev)) {
      var base, ctx, spec := Effective(db, st, ev);
      ReportedStateIsWritten(ctx, spec);
    }
  }

  // ---- the manual gate

  // A reviewer's verdict that names its own manual_gate_required with a false value.
  predicate OverridesGate(ev: Event) {
    ev.kind == ReviewerPass && "manual_gate_required" in ev.payload && !Truthy(ev.payload["manual_gate_required"])
  }

  predicate ReviewedApproval(ev: Event) {
    ev.kind == Approve && PayloadBool2(ev.payload, "reviewed", "manual_gate_approved")
  }

  // A task whose gate is raised reaches done by one event exactly when that event is a reviewed
  // /approve in human_review_required, or a clean pass in reviewing that overrides the gate.
  lemma GatedTaskFinishes(db: Db, st: Settings, ev: Event, id: string)
    requires DbOk(db) && id in db.tasks && db.tasks[id].gate && db.tasks[id].state != Done
    requires TaskRefOf(ev.payload) == Ref(id)
    ensures var db' := DbAfter(db, Route(db, st, ev));
            id in db'.tasks &&
            (db'.tasks[id].state == Done <==>
              (db.tasks[id].state == HumanReviewRequired && ReviewedApproval(ev))
              || (db.tasks[id].state == Reviewing && OverridesGate(ev) && NoneUnchecked(ev.payload) == Holds))
  {
    GatedOnlyIf(db, st, ev, id);
    assert TaskSound(db, id);
    if db.tasks[id].state == HumanReviewRequired && ReviewedApproval(ev) { ApprovalFinishes(db, st, ev, id); }
    if db.tasks[id].state == Reviewing && OverridesGate(ev) && NoneUnchecked(ev.payload) == Holds {
      OverrideFinishes(db, st, ev, id);
    }
  }

  lemma GatedOnlyIf(db: Db, st: Settings, ev: Event, id: string)
    requires DbOk(db) && id in db.tasks && db.tasks[id].gate && db.tasks[id].state != Done
    ensures var db' := DbAfter(db, Route(db, st, ev));
            id in db'.tasks &&
            (db'.tasks[id].state == Done ==>
              (db.tasks[id].state == HumanReviewRequired && ReviewedApproval(ev))
              || (db.tasks[id].state == Reviewing && OverridesGate(ev) && NoneUnchecked(ev.payload) == Holds))
  {
    OthersUnchanged(db, st, ev, id);
    var r := Route(db, st, ev);
    if TookEffect(r) && r.report.taskId.value == id {
      var c, spec := FiredSpec(db, st, ev, id);
      GateFacts(c, spec);
      if Handle(c, spec.handler).state == Done { DoneFacts(c, spec); }
    }
  }

  lemma ApprovalFinishes(db: Db, st: Settings, ev: Event, id: string)
    requires id in db.tasks && db.tasks[id].id == id && db.tasks[id].gate && TaskRefOf(ev.payload) == Ref(id)
    requires db.tasks[id].state == HumanReviewRequired && ReviewedApproval(ev)
    ensures var db' := DbAfter(db, Route(db, st, ev)); id in db'.tasks && db'.tasks[id].state == Done
  {
    var ctx := Ctx(db.tasks[id], ev, LatestPlan(db, id), st);
    var specs := Specs(HumanReviewRequired, Approve);
    assert specs == [Spec(GateApproved, To(Done), FinishAfterGate)];
    assert Choose(ctx, specs) == Picked(specs[0]);
  }

  lemma OverrideFinishes(db: Db, st: Settings, ev: Event, id: string)
    requires id in db.tasks && db.tasks[id].id == id && TaskRefOf(ev.payload) == Ref(id)
    requires db.tasks[id].state == Reviewing && OverridesGate(ev) && NoneUnchecked(ev.payload) == Holds
    ensures var db' := DbAfter(db, Route(db, st, ev)); id in db'.tasks && db'.tasks[id].state == Done
  {
    var ctx := Ctx(db.tasks[id], ev, LatestPlan(db, id), st);
    var specs := Specs(Reviewing, ReviewerPass);
    assert specs[0] == Spec(PassAllClear, To(Done), Finish);
    assert Choose(ctx, specs) == Picked(specs[0]);
  }

  // While the gate is raised it stays raised over every event, until the task is done.
  lemma GateLatched(db: Db, st: Settings, ev: Event, id: string)
    requires DbOk(db) && id in db.tasks && db.tasks[id].gate
    ensures var db' := DbAfter(db, Route(db, st, ev));
            id in db'.tasks && (db'.tasks[id].gate || db'.tasks[id].state == Done)
  {
    OthersUnchanged(db, st, ev, id);
    var r := Route(db, st, ev);
    if TookEffect(r) && r.report.taskId.value == id {
      var ctx, spec := FiredSpec(db, st, ev, id);
      GateFacts(ctx, spec);
    }
  }

  // /critical on in implementing or reviewing raises the gate.
  lemma CriticalOnRaisesGate(db: Db, st: Settings, ev: Event, id: string)
    requires DbOk(db) && id in db.tasks && (db.tasks[id].state == Implementing || db.tasks[id].state == Reviewing)
    requires ev.kind == CriticalOn && TaskRefOf(ev.payload) == Ref(id)
    ensures var db' := DbAfter(db, Route(db, st, ev)); id in db'.tasks && db'.tasks[id].gate && db'.tasks[id].critical
  {
    assert TaskSound(db, id);
    var ctx := Ctx(db.tasks[id], ev, LatestPlan(db, id), st);
    var specs := Specs(ctx.task.state, CriticalOn);
    assert specs == [Spec(Always, To(ctx.task.state), CriticalOnManualGate)];
    assert Choose(ctx, specs) == Picked(specs[0]);
  }

  // No reviewer-pass event of the run carries a gate of its own.
  ghost predicate NoOverride(r: Run) {
    forall id :: id in r.db.inbox ==> !OverridesGate(r.db.inbox[id].event)
  }

  // The k-th effective event is a reviewed /approve of the task, it took the task from
  // human_review_required to done, and nothing happened to the task since.
  ghost predicate FinishedBy(r: Run, id: string, k: nat) {
    && k < |r.applied| == |r.db.changes|
    && r.db.changes[k] == StateChanged(id, HumanReviewRequired, Done, Approve)
    && r.applied[k].taskId == id && r.applied[k].eventId in r.db.inbox
    && ReviewedApproval(r.db.inbox[r.applied[k].eventId].event)
    && TaskRefOf(r.db.inbox[r.applied[k].eventId].event.payload) == Ref(id)
    && forall j :: k < j < |r.db.changes| ==> r.db.changes[j].taskId != id
  }

  // The gate is raised, or the task was finished by an effective event after the first n.
  ghost predicate Latched(r: Run, id: string, n: nat) {
    && id in r.db.tasks && n <= |r.applied|
    && (if r.db.tasks[id].gate then r.db.tasks[id].state != Done
        else r.db.tasks[id].state == Done && exists k :: n <= k && FinishedBy(r, id, k))
  }

  lemma ApplyKeepsLatch(st: Settings, r: Run, m: Move, id: string, n: nat)
    requires RunOk(r) && Latched(r, id, n) && NoOverride(Apply(st, r, m))
    ensures Latched(Apply(st, r, m), id, n)
  {
    if m.RouteNext? && m.eventId in r.db.inbox && !r.db.inbox[m.eventId].processed {
      RoutedIsInbox(st, r, m.eventId);
      RouteKeepsLatch(st, r, m.eventId, id, n);
    } else {
      OthersKeepLogs(st, r, m);
      GrowthKeepsLatch(r, Apply(st, r, m), id, n);
    }
  }

  // The logs grew by what other tasks did, and no event was lost.
  predicate OthersGrow(r: Run, r': Run, id: string) {
    && r.applied <= r'.applied && r.db.changes <= r'.db.changes && |r'.applied| == |r'.db.changes|
    && (forall j :: |r.db.changes| <= j < |r'.db.changes| ==> r'.db.changes[j].taskId != id)
    && (forall e :: e in r.db.inbox ==> e in r'.db.inbox && r'.db.inbox[e].event == r.db.inbox[e].event)
    && (id in r.db.tasks ==> id in r'.db.tasks && r'.db.tasks[id] == r.db.tasks[id])
  }

  lemma GrowthKeepsLatch(r: Run, r': Run, id: string, n: nat)
    requires Latched(r, id, n) && OthersGrow(r, r', id)
    ensures Latched(r', id, n)
  {
    if k: nat :| n <= k && FinishedBy(r, id, k) { assert FinishedBy(r', id, k); }
  }

  lemma OthersKeepLogs(st: Settings, r: Run, m: Move)
    requires !m.RouteNext? || m.eventId !in r.db.inbox || r.db.inbox[m.eventId].processed
    requires |r.applied| == |r.db.changes|
    ensures forall id :: OthersGrow(r, Apply(st, r, m), id)
  {
  }

  lemma RoutedIsInbox(st: Settings, r: Run, eventId: string)
    requires RunOk(r) && eventId in r.db.inbox && !r.db.inbox[eventId].processed
    requires NoOverride(Apply(st, r, RouteNext(eventId)))
    ensures !OverridesGate(r.db.inbox[eventId].event)
  {
    ApplyKeepsInbox(st, r, RouteNext(eventId), eventId);
  }

  lemma RouteKeepsLatch(st: Settings, r: Run, eventId: string, id: string, n: nat)
    requires RunOk(r) && Latched(r, id, n) && eventId in r.db.inbox && !r.db.inbox[eventId].processed
    requires !OverridesGate(r.db.inbox[eventId].event)
    ensures Latched(Apply(st, r, RouteNext(eventId)), id, n)
  {
    if EffectiveTask(Route(r.db, st, r.db.inbox[eventId].event)) == Some(id) {
      RouteOwnLatch(st, r, eventId, id, n);
    } else {
      OthersUnchanged(r.db, st, r.db.inbox[eventId].event, id);
      RouteLog(st, r, eventId);
      GrowthKeepsLatch(r, Apply(st, r, RouteNext(eventId)), id, n);
    }
  }

  // The event's own task: it was not done, and if it is now, this event did it.
  lemma RouteOwnLatch(st: Settings, r: Run, eventId: string, id: string, n: nat)
    requires RunOk(r) && Latched(r, id, n) && eventId in r.db.inbox && !r.db.inbox[eventId].processed
    requires !OverridesGate(r.db.inbox[eventId].event)
    requires EffectiveTask(Route(r.db, st, r.db.inbox[eventId].event)) == Some(id)
    ensures Latched(Apply(st, r, RouteNext(eventId)), id, n)
  {
    var ev := r.db.inbox[eventId].event;
    var r' := Apply(st, r, RouteNext(eventId));
    NotDoneBefore(r.db, st, ev, id);
    OwnGate(r.db, st, ev, id);
    RouteLog(st, r, eventId);
    if !r'.db.tasks[id].gate { assert FinishedBy(r', id, |r.applied|); }
  }

  lemma NotDoneBefore(db: Db, st: Settings, ev: Event, id: string)
    requires DbOk(db) && id in db.tasks && EffectiveTask(Route(db, st, ev)) == Some(id)
    ensures db.tasks[id].state != Done
  {
    var ctx, spec := FiredSpec(db, st, ev, id);
    StateFacts(ctx, spec);
  }

  // A raised gate is still raised, or this very event is the reviewed approval that finished the task.
  lemma OwnGate(db: Db, st: Settings, ev: Event, id: string)
    requires DbOk(db) && id in db.tasks && EffectiveTask(Route(db, st, ev)) == Some(id)
    requires db.tasks[id].gate && db.tasks[id].state != Done && !OverridesGate(ev)
    ensures var db' := Route(db, st, ev).db;
            id in db'.tasks &&
            if db'.tasks[id].gate then db'.tasks[id].state != Done
            else
              && db'.tasks[id].state == Done && ReviewedApproval(ev) && TaskRefOf(ev.payload) == Ref(id)
              && db'.changes == db.changes + [StateChanged(id, HumanReviewRequired, Done, Approve)]
  {
    var ctx, spec := FiredSpec(db, st, ev, id);
    assert TaskSound(db, id);
    GateFacts(ctx, spec);
    if Handle(ctx, spec.handler).state == Done {
      FinishingFacts(ctx, spec);
      TargetRef(db, st, ev, id);
    }
  }

  lemma FinishingFacts(ctx: Ctx, spec: Spec)
    requires Fires(ctx, spec) && Handle(ctx, spec.handler).state == Done && ctx.task.gate
    requires !OverridesGate(ctx.event) && ctx.task.state != SystemDegraded
    ensures ctx.task.state == HumanReviewRequired && Handle(ctx, spec.handler).gate == Some(false)
    ensures ctx.event.kind == Approve && ReviewedApproval(ctx.event)
  {
    GateFacts(ctx, spec);
    DoneFacts(ctx, spec);
  }

  // Only issues.opened can reach a task without naming it.
  lemma TargetRef(db: Db, st: Settings, ev: Event, id: string)
    requires DbOk(db) && id in db.tasks && ev.kind != IssuesOpened
    requires TookEffect(Route(db, st, ev)) && Route(db, st, ev).report.taskId.value == id
    ensures TaskRefOf(ev.payload) == Ref(id)
  {
    var base, ctx, spec := Effective(db, st, ev);
    assert Applied(base, ctx, spec).report.taskId == Some(ctx.task.id);
  }

  lemma {:induction false} PlayKeepsLatch(st: Settings, r: Run, moves: seq<Move>, id: string, n: nat)
    requires RunOk(r) && Latched(r, id, n)
    requires NoOverride(Play(st, r, moves))
    ensures Latched(Play(st, r, moves), id, n)
    decreases |moves|
  {
    if moves != [] {
      InboxOnlyGrows(st, Apply(st, r, moves[0]), moves[1..]);
      ApplyKeeps(st, r, moves[0]);
      ApplyKeepsLatch(st, r, moves[0], id, n);
      PlayKeepsLatch(st, Apply(st, r, moves[0]), moves[1..], id, n);
    }
  }

  lemma ApplyKeepsInbox(st: Settings, r: Run, m: Move, e: string)
    requires e in r.db.inbox
    ensures e in Apply(st, r, m).db.inbox && Apply(st, r, m).db.inbox[e].event == r.db.inbox[e].event
  {
    if m.RouteNext? && m.eventId in r.db.inbox { RouteMarks(r.db, st, r.db.inbox[m.eventId].event); }
  }

  lemma {:induction false} InboxOnlyGrows(st: Settings, r: Run, moves: seq<Move>)
    ensures forall e :: e in r.db.inbox ==>
      e in Play(st, r, moves).db.inbox && Play(st, r, moves).db.inbox[e].event == r.db.inbox[e].event
    decreases |moves|
  {
    if moves != [] {
      forall e | e in r.db.inbox
        ensures e in Apply(st, r, moves[0]).db.inbox
        ensures Apply(st, r, moves[0]).db.inbox[e].event == r.db.inbox[e].event
      {
        ApplyKeepsInbox(st, r, moves[0], e);
      }
      InboxOnlyGrows(st, Apply(st, r, moves[0]), moves[1..]);
    }
  }

  // Once the gate of a task is raised, it survives every later run without an overriding verdict,
  // until a reviewed /approve, routed since, takes the task from human_review_required to done;
  // and that is the last thing that happens to the task.
  lemma ManualGateLatch(st: Settings, before: seq<Move>, after: seq<Move>, id: string)
    requires id in Reached(st, before).db.tasks && Reached(st, before).db.tasks[id].gate
        && Reached(st, before).db.tasks[id].state != Done
    requires NoOverride(Play(st, Reached(st, before), after))
    ensures var r := Play(st, Reached(st, before), after);
            && id in r.db.tasks
            && (if r.db.tasks[id].gate then r.db.tasks[id].state != Done
                else r.db.tasks[id].state == Done
                     && exists k :: |Reached(st, before).applied| <= k && FinishedBy(r, id, k))
  {
    ReachedOk(st, before);
    PlayKeepsLatch(st, Reached(st, before), after, id, |Reached(st, before).applied|);
  }

  // ---- labels

  // What a rebuild does to the label rows of its task: it deletes as its force flag says, and inserts
  // the row of its view's key, if there is none, as the newest.
  lemma RebuiltLabelRow(t: O.Table, q: R.Request, rid: nat)
    requires O.TableOk(t)
    ensures var b, t' := R.Base(t, q), R.Rebuilt(t, q);
            var id := q.view.taskId;
            && (LabelRow(b, id, rid) ==> rid < t.nextId && LabelRow(t', id, rid) && t'.rows[rid] == b.rows[rid])
            && (LabelRow(t', id, rid) && !LabelRow(b, id, rid) ==>
                  rid >= t.nextId && O.Conflicting(b, R.LabelDraft(q)) == {}
                  && t'.rows[rid] == O.FreshRow(R.LabelDraft(q)))
  {
    R.BaseKeepsTableOk(t, q);
    var b := R.Base(t, q);
    R.OtherStreamUnmoved(b, R.SnapshotDraft(q), R.LabelDraft(q));
    assert O.RowOk(b, rid);
  }

  // The row of the view's label key is there afterwards, and is new if it was not there before.
  lemma RebuiltOwnRow(t: O.Table, q: R.Request) returns (own: nat)
    requires O.TableOk(t)
    ensures LabelRow(R.Rebuilt(t, q), q.view.taskId, own)
    ensures R.Rebuilt(t, q).rows[own].payload.desired == O.DesiredLabels(q.view.state, q.view.critical)
    ensures O.Conflicting(R.Base(t, q), R.LabelDraft(q)) == {} ==> own >= t.nextId
    ensures O.Conflicting(R.Base(t, q), R.LabelDraft(q)) != {} ==> LabelRow(R.Base(t, q), q.view.taskId, own)
  {
    var b, t' := R.Base(t, q), R.Rebuilt(t, q);
    R.BaseKeepsTableOk(t, q);
    R.OneRowPerCurrentKey(t, q);
    own :| O.Conflicting(t', R.LabelDraft(q)) == {own};
    assert own in O.Conflicting(t', R.LabelDraft(q));
    assert O.RowOk(t', own);
    RebuiltLabelRow(t, q, own);
    assert LabelRow(b, q.view.taskId, own) ==> own in O.Conflicting(b, R.LabelDraft(q));
    if O.Conflicting(b, R.LabelDraft(q)) != {} {
      OldOwnRow(t, q, own);
    }
  }

  // A row that is there already is the one.
  lemma OldOwnRow(t: O.Table, q: R.Request, own: nat)
    requires O.TableOk(t) && O.Conflicting(R.Base(t, q), R.LabelDraft(q)) != {}
    requires O.Conflicting(R.Rebuilt(t, q), R.LabelDraft(q)) == {own}
    ensures LabelRow(R.Base(t, q), q.view.taskId, own)
  {
    R.BaseKeepsTableOk(t, q);
    var other :| other in O.Conflicting(R.Base(t, q), R.LabelDraft(q));
    assert O.RowOk(R.Base(t, q), other);
    RebuiltLabelRow(t, q, other);
    assert other in O.Conflicting(R.Rebuilt(t, q), R.LabelDraft(q));
  }

  lemma OwnIsLatest(t: O.Table, q: R.Request, own: nat)
    requires O.TableOk(t) && O.Conflicting(R.Base(t, q), R.LabelDraft(q)) == {}
    requires own >= t.nextId && LabelRow(R.Rebuilt(t, q), q.view.taskId, own)
    ensures forall rid :: LatestLabel(R.Rebuilt(t, q), q.view.taskId, rid) <==> rid == own
  {
    var t', id := R.Rebuilt(t, q), q.view.taskId;
    R.OneRowPerCurrentKey(t, q);
    RebuiltLabelRow(t, q, own);
    assert own in O.Conflicting(t', R.LabelDraft(q));
    forall j: nat | LabelRow(t', id, j) ensures j <= own {
      RebuiltLabelRow(t, q, j);
      assert j >= t.nextId ==> j in O.Conflicting(t', R.LabelDraft(q));
    }
    assert LatestLabel(t', id, own);
  }

  // The exact condition: the row it inserts agrees with the task as it is by then; or, if it finds
  // the row of its key, the newest label row that it leaves does.
  ghost predicate LabelsKept(db: Db, q: R.Request)
    requires q.view.taskId in db.tasks
  {
    var b, task := R.Base(db.outbox, q), db.tasks[q.view.taskId];
    if O.Conflicting(b, R.LabelDraft(q)) == {} then Agrees(O.DesiredLabels(q.view.state, q.view.critical), task)
    else forall rid :: LatestLabel(b, q.view.taskId, rid) ==> Agrees(b.rows[rid].payload.desired, task)
  }

  lemma RebuiltLatest(db: Db, q: R.Request, rid: nat)
    requires DbOk(db)
    ensures var b, t' := R.Base(db.outbox, q), R.Rebuilt(db.outbox, q);
            var id := q.view.taskId;
            if O.Conflicting(b, R.LabelDraft(q)) == {} then
              LatestLabel(t', id, rid) ==>
                t'.rows[rid].payload.desired == O.DesiredLabels(q.view.state, q.view.critical)
            else LatestLabel(t', id, rid) <==> LatestLabel(b, id, rid)
  {
    var b, t' := R.Base(db.outbox, q), R.Rebuilt(db.outbox, q);
    var id := q.view.taskId;
    var own := RebuiltOwnRow(db.outbox, q);
    forall j: nat
      ensures LabelRow(b, id, j) ==> LabelRow(t', id, j) && j < db.outbox.nextId
      ensures LabelRow(t', id, j) && !LabelRow(b, id, j) ==> O.Conflicting(b, R.LabelDraft(q)) == {}
    {
      RebuiltLabelRow(db.outbox, q, j);
    }
    RebuiltLabelRow(db.outbox, q, rid);
  }

  // A rebuild leaves a newest label row that agrees with the task exactly under that condition.
  lemma RebuildKeepsLabels(db: Db, q: R.Request)
    requires DbOk(db) && ViewSound(db, q.view)
    ensures LabelsSound(db.(outbox := R.Rebuilt(db.outbox, q)), q.view.taskId) <==> LabelsKept(db, q)
  {
    var b, t' := R.Base(db.outbox, q), R.Rebuilt(db.outbox, q);
    var id := q.view.taskId;
    var own := RebuiltOwnRow(db.outbox, q);
    forall rid ensures LatestLabel(t', id, rid) ==> LabelRow(t', id, rid) {
      RebuiltLatest(db, q, rid);
      RebuiltLabelRow(db.outbox, q, rid);
    }
    if O.Conflicting(b, R.LabelDraft(q)) == {} {
      OwnIsLatest(db.outbox, q, own);
    } else {
      forall rid ensures LatestLabel(t', id, rid) <==> LatestLabel(b, id, rid) { RebuiltLatest(db, q, rid); }
      forall rid | LatestLabel(b, id, rid) ensures t'.rows[rid] == b.rows[rid] { RebuiltLabelRow(db.outbox, q, rid); }
    }
  }

  // A plain rebuild: unless a row of its key is there already, what it read must agree with the task.
  lemma PlainRebuildKeepsLabels(db: Db, q: R.Request)
    requires DbOk(db) && ViewSound(db, q.view) && LabelsSound(db, q.view.taskId) && !q.force
    ensures LabelsSound(db.(outbox := R.Rebuilt(db.outbox, q)), q.view.taskId)
      <==> O.Conflicting(db.outbox, R.LabelDraft(q)) != {}
           || Agrees(O.DesiredLabels(q.view.state, q.view.critical), db.tasks[q.view.taskId])
  {
    RebuildKeepsLabels(db, q);
  }

  // ---- labels, over the other moves

  // Rows and tasks that no label depends on otherwise.
  lemma SameLabels(db: Db, db': Db, id: string)
    requires LabelsSound(db, id)
    requires id in db'.tasks ==> id in db.tasks && db'.tasks[id] == db.tasks[id]
    requires forall rid: nat :: LabelRow(db'.outbox, id, rid) <==> LabelRow(db.outbox, id, rid)
    requires forall rid: nat :: LabelRow(db.outbox, id, rid) ==>
      rid in db'.outbox.rows && db'.outbox.rows[rid].payload == db.outbox.rows[rid].payload
    ensures LabelsSound(db', id)
  {
    forall rid ensures LatestLabel(db'.outbox, id, rid) <==> LatestLabel(db.outbox, id, rid) {}
  }

  lemma RouteKeepsLabels(db: Db, st: Settings, ev: Event, id: string)
    requires DbOk(db) && LabelsSound(db, id)
    ensures LabelsSound(DbAfter(db, Route(db, st, ev)), id)
  {
    if TookEffect(Route(db, st, ev)) {
      var base, ctx, spec := Effective(db, st, ev);
      assert LabelsSound(base, id) by {
        forall rid ensures LabelRow(db.outbox, id, rid) ==> id in db.tasks { assert RowSound(db, rid); }
      }
      if id == ctx.task.id { AppliedLabels(base, ctx, spec); } else { AppliedElsewhere(base, ctx, spec, id); }
    } else {
      Ineffective(db, st, ev);
      SameLabels(db, DbAfter(db, Route(db, st, ev)), id);
    }
  }

  lemma RebuildKeepsOthersLabels(db: Db, q: R.Request, id: string)
    requires DbOk(db) && LabelsSound(db, id) && id != q.view.taskId
    ensures LabelsSound(db.(outbox := R.Rebuilt(db.outbox, q)), id)
  {
    forall rid: nat
      ensures LabelRow(R.Rebuilt(db.outbox, q), id, rid) <==> LabelRow(db.outbox, id, rid)
      ensures LabelRow(db.outbox, id, rid) ==> R.Rebuilt(db.outbox, q).rows[rid] == db.outbox.rows[rid]
    {
      RebuiltRow(db.outbox, q, rid);
    }
    SameLabels(db, db.(outbox := R.Rebuilt(db.outbox, q)), id);
  }

  // A move that is no rebuild of the task's rows, or one under the exact condition.
  ghost predicate Keeping(st: Settings, r: Run, m: Move, id: string) {
    Rebuilds(r, m) && r.readings[m.op].view.taskId == id && id in r.db.tasks ==>
      LabelsKept(r.db, RebuildRequest(st, r, m))
  }

  ghost predicate KeepingRun(st: Settings, r: Run, moves: seq<Move>, id: string)
    decreases |moves|
  {
    moves == [] || (Keeping(st, r, moves[0], id) && KeepingRun(st, Apply(st, r, moves[0]), moves[1..], id))
  }

  lemma ApplyKeepsLabels(st: Settings, r: Run, m: Move, id: string)
    requires RunOk(r) && LabelsSound(r.db, id) && Keeping(st, r, m, id)
    ensures LabelsSound(Apply(st, r, m).db, id)
  {
    if m.RouteNext? {
      if m.eventId in r.db.inbox { RouteKeepsLabels(r.db, st, r.db.inbox[m.eventId].event, id); }
    } else if Rebuilds(r, m) {
      RebuildMoveKeepsLabels(st, r, m, id);
    } else {
      assert Apply(st, r, m).db.tasks == r.db.tasks;
      SameLabels(r.db, Apply(st, r, m).db, id);
    }
  }

  lemma RebuildMoveKeepsLabels(st: Settings, r: Run, m: Move, id: string)
    requires RunOk(r) && Rebuilds(r, m) && LabelsSound(r.db, id) && Keeping(st, r, m, id)
    ensures LabelsSound(r.db.(outbox := R.Rebuilt(r.db.outbox, RebuildRequest(st, r, m))), id)
  {
    assert ReadingOk(r, m.op);
    var q := RebuildRequest(st, r, m);
    if q.view.taskId == id { RebuildKeepsLabels(r.db, q); } else { RebuildKeepsOthersLabels(r.db, q, id); }
  }

  lemma {:induction false} PlayKeepsLabels(st: Settings, r: Run, moves: seq<Move>, id: string)
    requires RunOk(r) && LabelsSound(r.db, id) && KeepingRun(st, r, moves, id)
    ensures LabelsSound(Play(st, r, moves).db, id)
    decreases |moves|
  {
    if moves != [] {
      ApplyKeeps(st, r, moves[0]);
      ApplyKeepsLabels(st, r, moves[0], id);
      PlayKeepsLabels(st, Apply(st, r, moves[0]), moves[1..], id);
    }
  }

  // Over every run in which each rebuild of the task meets the exact condition, the newest label
  // row of the task agrees with the task, and a task without one is neither critical nor cancelled
  // nor waiting for a human.
  lemma NewestLabelsAgree(st: Settings, moves: seq<Move>, id: string)
    requires id in Reached(st, moves).db.tasks && KeepingRun(st, RouterRuns.Start(), moves, id)
    ensures var db := Reached(st, moves).db;
            && (forall rid :: LatestLabel(db.outbox, id, rid) ==>
                 Agrees(db.outbox.rows[rid].payload.desired, db.tasks[id]))
            && ((forall rid :: !LabelRow(db.outbox, id, rid)) ==>
                  !db.tasks[id].critical && db.tasks[id].state != Cancelled
                      && db.tasks[id].state != HumanReviewRequired)
  {
    StartOk();
    PlayKeepsLabels(st, RouterRuns.Start(), moves, id);
  }

  // ---- rebuilds that commit before the next event on their task

  // A label row behind one of the task's present revision agrees with the task.
  predicate TailAgrees(db: Db, id: string, k: nat, j: nat) {
    id in db.tasks && LabelRow(db.outbox, id, k) && LabelRow(db.outbox, id, j) && k < j
        && db.outbox.rows[k].rev == db.tasks[id].rev ==>
      Agrees(db.outbox.rows[j].payload.desired, db.tasks[id])
  }

  ghost predicate TailSound(db: Db, id: string) {
    forall k, j :: TailAgrees(db, id, k, j)
  }

  lemma SameTail(db: Db, db': Db, id: string, k: nat, j: nat)
    requires TailAgrees(db, id, k, j)
    requires id in db'.tasks ==> id in db.tasks && db'.tasks[id] == db.tasks[id]
    requires forall rid :: rid in {k, j} && LabelRow(db'.outbox, id, rid) ==>
      LabelRow(db.outbox, id, rid) && SameContent(db.outbox.rows[rid], db'.outbox.rows[rid])
    ensures TailAgrees(db', id, k, j)
  {
    assert k in {k, j} && j in {k, j};
  }

  lemma AppliedTail(db: Db, ctx: Ctx, spec: Spec, id: string, k: nat, j: nat)
    requires Ready(db, ctx) && Fires(ctx, spec) && TailAgrees(db, id, k, j)
    ensures TailAgrees(Applied(db, ctx, spec).db, id, k, j)
  {
    AppliedLabelRow(db, ctx, spec, id, k);
    AppliedLabelRow(db, ctx, spec, id, j);
    assert RowSound(db, k) && TaskSound(db, ctx.task.id);
  }

  lemma RouteKeepsTail(db: Db, st: Settings, ev: Event, id: string, k: nat, j: nat)
    requires DbOk(db) && TailAgrees(db, id, k, j)
    ensures TailAgrees(DbAfter(db, Route(db, st, ev)), id, k, j)
  {
    var db' := DbAfter(db, Route(db, st, ev));
    if TookEffect(Route(db, st, ev)) {
      var base, ctx, spec := Effective(db, st, ev);
      assert TailAgrees(base, id, k, j) by {
        if !(id in db.tasks) { assert RowSound(db, k); }
      }
      AppliedTail(base, ctx, spec, id, k, j);
    } else {
      Ineffective(db, st, ev);
      SameTail(db, db', id, k, j);
    }
  }

  lemma RebuildKeepsTail(db: Db, q: R.Request, id: string, k: nat, j: nat)
    requires DbOk(db) && ViewSound(db, q.view) && TailAgrees(db, id, k, j)
    requires q.view.taskId == id ==> LabelsKept(db, q)
    ensures TailAgrees(db.(outbox := R.Rebuilt(db.outbox, q)), id, k, j)
  {
    var db' := db.(outbox := R.Rebuilt(db.outbox, q));
    RebuiltRow(db.outbox, q, k);
    RebuiltRow(db.outbox, q, j);
    if id == q.view.taskId {
      RebuiltLabelRow(db.outbox, q, k);
      RebuiltLabelRow(db.outbox, q, j);
      assert O.RowOk(db.outbox, k);
    } else {
      SameTail(db, db', id, k, j);
    }
  }

  // A view of the task's present revision meets the exact condition.
  lemma CurrentViewKeeps(db: Db, q: R.Request)
    requires DbOk(db) && ViewSound(db, q.view) && TailSound(db, q.view.taskId)
    requires q.view.rev == db.tasks[q.view.taskId].rev
    ensures LabelsKept(db, q)
  {
    var b := R.Base(db.outbox, q);
    if cur :| cur in O.Conflicting(b, R.LabelDraft(q)) {
      forall rid | LatestLabel(b, q.view.taskId, rid)
        ensures Agrees(b.rows[rid].payload.desired, db.tasks[q.view.taskId])
      {
        BehindCurrent(db, q, cur, rid);
      }
    }
  }

  lemma BehindCurrent(db: Db, q: R.Request, cur: nat, rid: nat)
    requires DbOk(db) && ViewSound(db, q.view) && TailAgrees(db, q.view.taskId, cur, rid)
    requires q.view.rev == db.tasks[q.view.taskId].rev
    requires cur in O.Conflicting(R.Base(db.outbox, q), R.LabelDraft(q))
    requires LatestLabel(R.Base(db.outbox, q), q.view.taskId, rid)
    ensures Agrees(db.outbox.rows[rid].payload.desired, db.tasks[q.view.taskId])
  {
    assert O.RowOk(db.outbox, cur) && RowSound(db, cur) && TaskSound(db, q.view.taskId);
    assert LabelRow(R.Base(db.outbox, q), q.view.taskId, cur);
  }

  // No event takes effect on the task between a rebuild's read and its transaction.
  ghost predicate Undisturbed(r: Run, m: Move, id: string) {
    Rebuilds(r, m) && r.readings[m.op].view.taskId == id && id in r.db.tasks ==>
      r.readings[m.op].view.rev == r.db.tasks[id].rev
  }

  ghost predicate UndisturbedRun(st: Settings, r: Run, moves: seq<Move>, id: string)
    decreases |moves|
  {
    moves == [] || (Undisturbed(r, moves[0], id) && UndisturbedRun(st, Apply(st, r, moves[0]), moves[1..], id))
  }

  lemma ApplyKeepsTail(st: Settings, r: Run, m: Move, id: string, k: nat, j: nat)
    requires RunOk(r) && TailAgrees(r.db, id, k, j) && Keeping(st, r, m, id)
    ensures TailAgrees(Apply(st, r, m).db, id, k, j)
  {
    if m.RouteNext? {
      if m.eventId in r.db.inbox { RouteKeepsTail(r.db, st, r.db.inbox[m.eventId].event, id, k, j); }
    } else if Rebuilds(r, m) {
      assert ReadingOk(r, m.op);
      RebuildKeepsTail(r.db, RebuildRequest(st, r, m), id, k, j);
    } else {
      SameTail(r.db, Apply(st, r, m).db, id, k, j);
    }
  }

  lemma {:induction false} UndisturbedRunKeeps(st: Settings, r: Run, moves: seq<Move>, id: string)
    requires RunOk(r) && LabelsSound(r.db, id) && TailSound(r.db, id) && UndisturbedRun(st, r, moves, id)
    ensures KeepingRun(st, r, moves, id)
    decreases |moves|
  {
    if moves != [] {
      var m := moves[0];
      if Rebuilds(r, m) && r.readings[m.op].view.taskId == id {
        assert ReadingOk(r, m.op);
        CurrentViewKeeps(r.db, RebuildRequest(st, r, m));
      }
      ApplyKeeps(st, r, m);
      ApplyKeepsLabels(st, r, m, id);
      forall k, j ensures TailAgrees(Apply(st, r, m).db, id, k, j) { ApplyKeepsTail(st, r, m, id, k, j); }
      UndisturbedRunKeeps(st, Apply(st, r, m), moves[1..], id);
    }
  }

  // So a rebuild can spoil the labels only if an event on its task commits between its read and its transaction.
  lemma UndisturbedRebuildsKeepLabels(st: Settings, moves: seq<Move>, id: string)
    requires UndisturbedRun(st, RouterRuns.Start(), moves, id)
    ensures KeepingRun(st, RouterRuns.Start(), moves, id)
  {
    StartOk();
    UndisturbedRunKeeps(st, RouterRuns.Start(), moves, id);
  }

  // ---- what the router hands to the delivery protocol

  // The row that the router reads for the event's task: stored, or just created from the event.
  function SeenTask(db: Db, ev: Event, id: string): Option<Task> {
    if id in db.tasks then Some(db.tasks[id]) else CreatedTask(ev)
  }

  // Every outbox insert of a transition goes through, the first ones of a new task among them: none
  // meets the unique constraint, and the transition adds exactly one row per emit.
  lemma InsertsNeverConflict(st: Settings, moves: seq<Move>, ev: Event)
    requires TookEffect(Route(Reached(st, moves).db, st, ev))
    ensures var db := Reached(st, moves).db;
            var id := Route(db, st, ev).report.taskId.value;
            exists ctx: Ctx, spec: Spec :: SeenTask(db, ev, id) == Some(ctx.task)
                && ctx == Ctx(ctx.task, ev, LatestPlan(db, id), st) && Fires(ctx, spec)
              && Route(db, st, ev).db.outbox.nextId == db.outbox.nextId + |Handle(ctx, spec.handler).emits|
  {
    ReachedOk(st, moves);
    var db := Reached(st, moves).db;
    var base, ctx, spec := Effective(db, st, ev);
    AppliedOutbox(base, ctx, spec, 0);
    assert Applied(base, ctx, spec).report.taskId == Some(ctx.task.id);
  }
}
