/**
 Runs of the router: the ingester adds events, the router routes unprocessed ones, the dispatcher
 stores plans, the projection workers move the outbox on; a crash inside a transaction is a step
 that changes nothing. Operators rebuild in processes of their own, each of which reads the task and
 then the plan before its transaction begins, so other moves can fall between any two of the three.
 */
module RouterRuns {
  import opened Common
  import opened Events
  import opened StateMachine
  import opened Transitions
  import opened Router
  import opened HandlerFacts
  import I = Idempotency
  import O = Outbox
  import R = Rebuild

  // An event that took effect on a task, in commit order.
  datatype Entry = Entry(eventId: string, taskId: string)

  // What the process of a rebuild has read so far.
  datatype Reading = TaskRead(view: R.View) | PlanRead(view: R.View)

  datatype Run = Run(db: Db, applied: seq<Entry>, readings: map<string, Reading>)

  datatype Move =
    | Ingest(event: Event)
    | RouteNext(eventId: string)
    | Abort(eventId: string)
    | StorePlan(taskId: string, plan: Plan)
    | Deliver(outbox: O.Table)
    | ReadTask(op: string, taskId: string)
    | ReadPlan(op: string)
    | RebuildRows(op: string, force: bool, now: int, origin: string)

  function Start(): Run {
    Run(Db(map[], map[], map[], O.EmptyTable(), [], map[]), [], map[])
  }

  // What projection workers may do to the outbox: claims, attempts, due times and sent marks.
  ghost predicate Delivers(t: O.Table, t': O.Table) {
    && t'.nextId == t.nextId && t'.rows.Keys == t.rows.Keys && O.TableOk(t')
    && forall id :: id in t.rows ==> SameContent(t.rows[id], t'.rows[id])
  }

  predicate SameContent(a: O.Row, b: O.Row) {
    b.lane == a.lane && b.origin == a.origin && b.payload == a.payload && b.rev == a.rev && b.key == a.key
  }

  predicate TookEffect(r: Routed) {
    r.Committed? && r.report.skipped.None? && r.report.taskId.Some? && r.report.from.Some?
  }

  // The process has read the task and its plan.
  predicate HasView(r: Run, op: string) {
    op in r.readings && r.readings[op].PlanRead?
  }

  predicate Rebuilds(r: Run, m: Move) {
    m.RebuildRows? && HasView(r, m.op)
  }

  function RebuildRequest(st: Settings, r: Run, m: Move): R.Request
    requires Rebuilds(r, m)
  {
    R.Request(r.readings[m.op].view, m.force, m.now, m.origin, st.baseUrl)
  }

  ghost function Apply(st: Settings, r: Run, m: Move): Run {
    match m
    case Ingest(ev) => if ev.id in r.db.inbox then r
        else r.(db := r.db.(inbox := r.db.inbox[ev.id := InboxRow(ev, false)]))
    case RouteNext(id) =>
      if id !in r.db.inbox || r.db.inbox[id].processed then r
      else
        var routed := Route(r.db, st, r.db.inbox[id].event);
        r.(db := DbAfter(r.db, routed),
           applied := if TookEffect(routed) then r.applied + [Entry(id, routed.report.taskId.value)] else r.applied)
    case Abort(_) => r
    case StorePlan(taskId, plan) => r.(db := r.db.(plans := r.db.plans[taskId := plan]))
    case Deliver(t) => if Delivers(r.db.outbox, t) then r.(db := r.db.(outbox := t)) else r
    case ReadTask(op, taskId) =>
      if taskId !in r.db.tasks then r.(readings := r.readings - {op})
      else r.(readings := r.readings[op := TaskRead(ViewOf(r.db.tasks[taskId], None))])
    case ReadPlan(op) =>
      if op !in r.readings || r.readings[op].PlanRead? then r
      else
        var v := r.readings[op].view;
        var plan := LatestPlan(r.db, v.taskId);
        r.(readings := r.readings[op := PlanRead(v.(planRev := if plan.None? then None else Some(plan.value.rev)))])
    case RebuildRows(op, _, _, _) =>
      if !HasView(r, op) then r
      else r.(db := r.db.(outbox := R.Rebuilt(r.db.outbox, RebuildRequest(st, r, m))), readings := r.readings - {op})
  }

  ghost function Play(st: Settings, r: Run, moves: seq<Move>): Run
    decreases |moves|
  {
    if moves == [] then r else Play(st, Apply(st, r, moves[0]), moves[1..])
  }

  // ---- ledger vocabulary

  function Changes(cs: seq<StateChanged>, taskId: string): nat {
    if cs == [] then 0
    else Changes(cs[..|cs| - 1], taskId) + if cs[|cs| - 1].taskId == taskId then 1 else 0
  }

  function Effects(es: seq<Entry>, taskId: string): nat {
    if es == [] then 0
    else Effects(es[..|es| - 1], taskId) + if es[|es| - 1].taskId == taskId then 1 else 0
  }

  predicate Visited(cs: seq<StateChanged>, taskId: string, s: TaskState) {
    exists k :: 0 <= k < |cs| && cs[k].taskId == taskId && cs[k].to == s
  }

  lemma ChangesPlusOne(cs: seq<StateChanged>, c: StateChanged, taskId: string)
    ensures Changes(cs + [c], taskId) == Changes(cs, taskId) + if c.taskId == taskId then 1 else 0
    ensures forall s :: Visited(cs, taskId, s) ==> Visited(cs + [c], taskId, s)
    ensures c.taskId == taskId ==> Visited(cs + [c], taskId, c.to)
  {
    assert (cs + [c])[..|cs|] == cs;
    forall s | Visited(cs, taskId, s) ensures Visited(cs + [c], taskId, s) {
      var k :| 0 <= k < |cs| && cs[k].taskId == taskId && cs[k].to == s;
      assert (cs + [c])[k] == cs[k];
    }
    assert (cs + [c])[|cs|] == c;
  }

  // ---- invariant of one task

  // Everything but the state being settled; a row that run_once has just created satisfies it too.
  ghost predicate TaskSound(db: Db, id: string) {
    if id !in db.tasks then Changes(db.changes, id) == 0
    else
      var t := db.tasks[id];
      && t.id == id
      && t.rev == Changes(db.changes, id)
      && (t.state == SystemDegraded ==> t.resume.Some?)
      && (t.resume.Some? ==>
           (t.state == SystemDegraded || t.state == Cancelled)
           && (t.resume.value == Planning || t.resume.value == Implementing))
      && (t.state in AFTER_START || t.gate ==> Visited(db.changes, id, Implementing))
  }

  predicate Settled(db: Db, id: string) {
    id in db.tasks ==> db.tasks[id].state != New
  }

  // An outbox row belongs to a task, is no newer than it, and mirrors its issue; a row of the task's
  // present revision shows its present state.
  predicate RowSound(db: Db, rid: nat) {
    rid in db.outbox.rows ==>
      var row := db.outbox.rows[rid];
      && row.lane.taskId in db.tasks
      && var t := db.tasks[row.lane.taskId];
      && row.rev <= t.rev
      && (row.lane.stream == I.TaskSnapshot || row.lane.stream == I.TaskLabelSync ==>
           row.lane.target == O.IssueTarget(t.id, t.sourceIssue))
      && (row.lane.stream == I.TaskSnapshot && row.rev == t.rev ==> ShowsTask(row.payload, t))
      && (row.lane.stream == I.TaskLabelSync && row.payload.Labels? && row.rev == t.rev ==>
           row.payload.desired == O.DesiredLabels(t.state, t.critical))
  }

  // What a process has read of a task is no newer than the task, and true of it until the next event takes effect.
  predicate ViewSound(db: Db, v: R.View) {
    v.taskId in db.tasks
    && var t := db.tasks[v.taskId];
    && v.rev <= t.rev && v.sourceIssue == t.sourceIssue
    && (v.rev == t.rev ==> v.state == t.state && v.critical == t.critical)
  }

  predicate ShowsTask(p: O.Payload, t: Task) {
    p.Snapshot? && p.body.state == t.state && p.body.critical == t.critical && p.body.rev == t.rev
  }

  predicate LabelRow(t: O.Table, taskId: string, rid: nat) {
    rid in t.rows && t.rows[rid].lane.taskId == taskId && t.rows[rid].lane.stream == I.TaskLabelSync
        && t.rows[rid].payload.Labels?
  }

  // The newest label row of the task.
  ghost predicate LatestLabel(t: O.Table, taskId: string, rid: nat) {
    LabelRow(t, taskId, rid) && forall j: nat :: LabelRow(t, taskId, j) ==> j <= rid
  }

  predicate Agrees(labels: set<I.Label>, t: Task) {
    && (I.CriticalLabel in labels <==> t.critical)
    && (I.CancelledLabel in labels <==> t.state == Cancelled)
    && (t.state == HumanReviewRequired ==> I.HumanReviewLabel in labels)
  }

  // The newest label row of the task agrees with it; without one it is neither critical nor
  // cancelled nor waiting for a human.
  ghost predicate LabelsSound(db: Db, id: string) {
    id in db.tasks ==>
      var t := db.tasks[id];
      && (forall rid :: LatestLabel(db.outbox, id, rid) ==> Agrees(db.outbox.rows[rid].payload.desired, t))
      && ((forall rid :: !LabelRow(db.outbox, id, rid)) ==>
           !t.critical && t.state != Cancelled && t.state != HumanReviewRequired)
  }

  ghost predicate DbSound(db: Db) {
    && O.TableOk(db.outbox)
    && (forall id :: TaskSound(db, id))
    && (forall rid :: RowSound(db, rid))
  }

  ghost predicate DbOk(db: Db) {
    DbSound(db) && forall id :: Settled(db, id)
  }

  // ---- the outbox rows of one transition

  predicate RowOfEmit(ctx: Ctx, after: Task, emits: seq<Emit>, row: O.Row) {
    exists e :: e in emits && row == O.FreshRow(DraftOf(ctx, after, e))
  }

  // No row of the table blocks a draft of this transition.
  ghost predicate Unblocked(t: O.Table, after: Task, emits: seq<Emit>) {
    forall rid :: rid in t.rows && t.rows[rid].lane.taskId == after.id && t.rows[rid].rev >= after.rev ==>
      t.rows[rid].rev == after.rev && forall e :: e in emits ==> t.rows[rid].lane.stream != StreamOf(e)
  }

  function StreamOf(e: Emit): I.Stream {
    match e case EmitSnapshot => I.TaskSnapshot case EmitAlert(_) => I.DiscordAlert case EmitLabels => I.TaskLabelSync
  }

  // A router insert never meets the unique constraint: the key carries a revision that is new.
  lemma DraftIsNew(t: O.Table, ctx: Ctx, after: Task, emits: seq<Emit>, e: Emit)
    requires O.TableOk(t) && Unblocked(t, after, emits) && e in emits
    ensures O.DraftFits(DraftOf(ctx, after, e))
    ensures O.Conflicting(t, DraftOf(ctx, after, e)) == {}
  {
    var d := DraftOf(ctx, after, e);
    forall rid ensures rid !in O.Conflicting(t, d) {
      assert O.RowOk(t, rid);
    }
  }

  predicate IsNew(t: O.Table, t': O.Table, rid: nat, d: O.Draft) {
    rid >= t.nextId && rid in t'.rows && rid !in t.rows && t'.rows[rid] == O.FreshRow(d)
  }

  lemma {:induction false} EmitAllRows(t: O.Table, ctx: Ctx, after: Task, emits: seq<Emit>)
    requires O.TableOk(t) && Unblocked(t, after, emits)
    requires forall i, j :: 0 <= i < j < |emits| ==> StreamRank(emits[i]) != StreamRank(emits[j])
    ensures var t' := EmitAll(t, ctx, after, emits);
            && O.TableOk(t') && t'.nextId == t.nextId + |emits| && t'.cursors == t.cursors
            && (forall rid :: rid in t.rows ==> rid in t'.rows && t'.rows[rid] == t.rows[rid])
            && (forall rid :: rid in t'.rows && rid !in t.rows ==>
                 rid >= t.nextId && RowOfEmit(ctx, after, emits, t'.rows[rid]))
    decreases |emits|
  {
    if emits != [] {
      var e, rest := emits[0], emits[1..];
      DraftIsNew(t, ctx, after, emits, e);
      O.InsertKeepsTableOk(t, DraftOf(ctx, after, e));
      var t1 := O.Insert(t, DraftOf(ctx, after, e));
      RestUnblocked(t, ctx, after, emits);
      EmitAllRows(t1, ctx, after, rest);
      var t' := EmitAll(t1, ctx, after, rest);
      forall rid | rid in t'.rows && rid !in t.rows
        ensures rid >= t.nextId && RowOfEmit(ctx, after, emits, t'.rows[rid]) {
        if rid in t1.rows {
          assert rid == t.nextId && t'.rows[rid] == O.FreshRow(DraftOf(ctx, after, e));
        } else {
          var x :| x in rest && t'.rows[rid] == O.FreshRow(DraftOf(ctx, after, x));
          assert x in emits;
        }
      }
    }
  }

  // Each emit has its row.
  lemma {:induction false} EmitHasRow(t: O.Table, ctx: Ctx, after: Task, emits: seq<Emit>, e: Emit)
    requires O.TableOk(t) && Unblocked(t, after, emits) && e in emits
    requires forall i, j :: 0 <= i < j < |emits| ==> StreamRank(emits[i]) != StreamRank(emits[j])
    ensures exists rid :: IsNew(t, EmitAll(t, ctx, after, emits), rid, DraftOf(ctx, after, e))
    decreases |emits|
  {
    var d := DraftOf(ctx, after, emits[0]);
    DraftIsNew(t, ctx, after, emits, emits[0]);
    O.InsertKeepsTableOk(t, d);
    assert O.RowOk(t, t.nextId);
    RestUnblocked(t, ctx, after, emits);
    var t1 := O.Insert(t, d);
    EmitAllRows(t1, ctx, after, emits[1..]);
    if e == emits[0] {
      assert IsNew(t, EmitAll(t, ctx, after, emits), t.nextId, d);
    } else {
      EmitHasRow(t1, ctx, after, emits[1..], e);
      var rid: nat :| IsNew(t1, EmitAll(t1, ctx, after, emits[1..]), rid, DraftOf(ctx, after, e));
      assert IsNew(t, EmitAll(t, ctx, after, emits), rid, DraftOf(ctx, after, e));
    }
  }

  lemma RestUnblocked(t: O.Table, ctx: Ctx, after: Task, emits: seq<Emit>)
    requires O.TableOk(t) && Unblocked(t, after, emits) && emits != []
    requires forall i, j :: 0 <= i < j < |emits| ==> StreamRank(emits[i]) != StreamRank(emits[j])
    ensures Unblocked(O.Insert(t, DraftOf(ctx, after, emits[0])), after, emits[1..])
    ensures forall i, j :: 0 <= i < j < |emits[1..]| ==> StreamRank(emits[1..][i]) != StreamRank(emits[1..][j])
  {
    var e, rest := emits[0], emits[1..];
    assert forall x :: x in rest ==> x in emits && StreamRank(x) != StreamRank(e);
    forall i, j | 0 <= i < j < |rest| ensures StreamRank(rest[i]) != StreamRank(rest[j]) {
      assert rest[i] == emits[i + 1] && rest[j] == emits[j + 1];
    }
  }

  // ---- preservation: a transition that is applied

  // The database in which a transition is applied: sound, with a context read from it.
  ghost predicate Ready(db: Db, ctx: Ctx) {
    && DbSound(db)
    && ctx.task.id in db.tasks && db.tasks[ctx.task.id] == ctx.task
    && (ctx.task.state != New || ctx.event.kind == IssuesOpened)
  }

  lemma ResumeIsNotNew(db: Db, ctx: Ctx, spec: Spec)
    requires Ready(db, ctx) && Fires(ctx, spec)
    ensures Handle(ctx, spec.handler).state != New
  {
    StateFacts(ctx, spec);
    assert TaskSound(db, ctx.task.id);
  }

  lemma AppliedTask(db: Db, ctx: Ctx, spec: Spec, id: string)
    requires Ready(db, ctx) && Fires(ctx, spec)
    ensures TaskSound(Applied(db, ctx, spec).db, id)
    ensures id == ctx.task.id ==> Settled(Applied(db, ctx, spec).db, id)
    ensures id != ctx.task.id && Settled(db, id) ==> Settled(Applied(db, ctx, spec).db, id)
  {
    assert TaskSound(db, id);
    if id == ctx.task.id {
      AppliedSelf(db, ctx, spec);
    } else {
      ChangesPlusOne(db.changes,
          StateChanged(ctx.task.id, ctx.task.state, Handle(ctx, spec.handler).state, ctx.event.kind), id);
    }
  }

  lemma AppliedSelf(db: Db, ctx: Ctx, spec: Spec)
    requires Ready(db, ctx) && Fires(ctx, spec)
    ensures TaskSound(Applied(db, ctx, spec).db, ctx.task.id) && Settled(Applied(db, ctx, spec).db, ctx.task.id)
  {
    assert TaskSound(db, ctx.task.id);
    AppliedCount(db, ctx, spec);
    ResumeIsNotNew(db, ctx, spec);
    AppliedResume(db, ctx, spec);
    AppliedStart(db, ctx, spec);
  }

  lemma AppliedCount(db: Db, ctx: Ctx, spec: Spec)
    requires Ready(db, ctx) && Fires(ctx, spec)
    ensures var c := Handle(ctx, spec.handler);
            var changed := StateChanged(ctx.task.id, ctx.task.state, c.state, ctx.event.kind);
            Bumped(ctx.task, c).rev == Changes(db.changes + [changed], ctx.task.id)
  {
    var c := Handle(ctx, spec.handler);
    ChangesPlusOne(db.changes, StateChanged(ctx.task.id, ctx.task.state, c.state, ctx.event.kind), ctx.task.id);
    assert TaskSound(db, ctx.task.id);
  }

  lemma AppliedResume(db: Db, ctx: Ctx, spec: Spec)
    requires Ready(db, ctx) && Fires(ctx, spec)
    ensures var t := Bumped(ctx.task, Handle(ctx, spec.handler));
            && (t.state == SystemDegraded ==> t.resume.Some?)
            && (t.resume.Some? ==>
                  (t.state == SystemDegraded || t.state == Cancelled)
                  && (t.resume.value == Planning || t.resume.value == Implementing))
  {
    assert TaskSound(db, ctx.task.id);
    ResumeFacts(ctx, spec);
  }

  lemma AppliedStart(db: Db, ctx: Ctx, spec: Spec)
    requires ctx.task.id in db.tasks && db.tasks[ctx.task.id] == ctx.task && TaskSound(db, ctx.task.id)
        && Fires(ctx, spec)
    ensures var c := Handle(ctx, spec.handler);
            var cs := db.changes + [StateChanged(ctx.task.id, ctx.task.state, c.state, ctx.event.kind)];
            var after := Bumped(ctx.task, c);
            after.state in AFTER_START || after.gate ==> Visited(cs, ctx.task.id, Implementing)
  {
    var c := Handle(ctx, spec.handler);
    var changed := StateChanged(ctx.task.id, ctx.task.state, c.state, ctx.event.kind);
    ChangesPlusOne(db.changes, changed, ctx.task.id);
    if Visited(db.changes, ctx.task.id, Implementing) {
      assert Visited(db.changes + [changed], ctx.task.id, Implementing);
    } else {
      StartsAtImplementing(ctx, spec);
    }
  }

  // From a task that work has not started on, one event leads at most to implementing.
  lemma StartsAtImplementing(ctx: Ctx, spec: Spec)
    requires Fires(ctx, spec) && ctx.task.state !in AFTER_START && !ctx.task.gate
    requires ctx.task.state == SystemDegraded ==>
      ctx.task.resume == Some(Planning) || ctx.task.resume == Some(Implementing)
    ensures var after := Bumped(ctx.task, Handle(ctx, spec.handler));
            !after.gate && (after.state in AFTER_START ==> after.state == Implementing)
  {
    GateFacts(ctx, spec);
    if ctx.task.state == SystemDegraded { ResumeFacts(ctx, spec); } else { StartFacts(ctx, spec); }
  }

  lemma OutboxReady(db: Db, ctx: Ctx, spec: Spec)
    requires Ready(db, ctx) && Fires(ctx, spec)
    ensures Unblocked(db.outbox, Bumped(ctx.task, Handle(ctx, spec.handler)), Handle(ctx, spec.handler).emits)
  {
    forall rid | rid in db.outbox.rows && db.outbox.rows[rid].lane.taskId == ctx.task.id
      ensures db.outbox.rows[rid].rev <= ctx.task.rev {
      assert RowSound(db, rid);
    }
  }

  lemma DraftShape(ctx: Ctx, after: Task, e: Emit)
    ensures var d := DraftOf(ctx, after, e);
            && d.lane.taskId == after.id && d.rev == after.rev && d.lane.stream == StreamOf(e)
            && (e == EmitLabels ==> d.payload == O.Labels(O.DesiredLabels(after.state, after.critical)))
            && (e == EmitSnapshot ==> ShowsTask(d.payload, after))
            && (e.EmitAlert? || d.lane.target == O.IssueTarget(after.id, after.sourceIssue))
  {
  }

  // What a transition does to the outbox, row by row.
  lemma AppliedOutbox(db: Db, ctx: Ctx, spec: Spec, rid: nat)
    requires Ready(db, ctx) && Fires(ctx, spec)
    ensures var t, t' := db.outbox, Applied(db, ctx, spec).db.outbox;
            var c := Handle(ctx, spec.handler);
            var after := Bumped(ctx.task, c);
            && O.TableOk(t') && t'.nextId == t.nextId + |c.emits| && t'.cursors == t.cursors
            && (rid in t.rows ==> rid < t.nextId && rid in t'.rows && t'.rows[rid] == t.rows[rid])
            && (rid in t'.rows && rid !in t.rows ==>
                 rid >= t.nextId && exists e :: e in c.emits && t'.rows[rid] == O.FreshRow(DraftOf(ctx, after, e)))
  {
    var c := Handle(ctx, spec.handler);
    OutboxReady(db, ctx, spec);
    EmitFacts(ctx, spec.handler);
    EmitAllRows(db.outbox, ctx, Bumped(ctx.task, c), c.emits);
    assert O.RowOk(db.outbox, rid);
  }

  lemma AppliedRows(db: Db, ctx: Ctx, spec: Spec, rid: nat)
    requires Ready(db, ctx) && Fires(ctx, spec)
    ensures RowSound(Applied(db, ctx, spec).db, rid)
  {
    AppliedOutbox(db, ctx, spec, rid);
    assert RowSound(db, rid) && TaskSound(db, ctx.task.id);
    var db' := Applied(db, ctx, spec).db;
    if rid in db'.outbox.rows && rid !in db.outbox.rows {
      var c := Handle(ctx, spec.handler);
      var e :| e in c.emits && db'.outbox.rows[rid] == O.FreshRow(DraftOf(ctx, Bumped(ctx.task, c), e));
      DraftShape(ctx, Bumped(ctx.task, c), e);
    }
  }

  // Label rows of the new outbox: those of the old one, and the one this transition wrote.
  lemma AppliedLabelRow(db: Db, ctx: Ctx, spec: Spec, id: string, rid: nat)
    requires Ready(db, ctx) && Fires(ctx, spec)
    ensures var t, t' := db.outbox, Applied(db, ctx, spec).db.outbox;
            var c := Handle(ctx, spec.handler);
            var after := Bumped(ctx.task, c);
            && (LabelRow(t, id, rid) ==> rid < t.nextId && LabelRow(t', id, rid) && t'.rows[rid] == t.rows[rid])
            && (LabelRow(t', id, rid) && !LabelRow(t, id, rid) ==>
                  && rid >= t.nextId && id == ctx.task.id && EmitLabels in c.emits
                  && t'.rows[rid].rev == after.rev
                       && t'.rows[rid].payload.desired == O.DesiredLabels(after.state, after.critical))
  {
    AppliedOutbox(db, ctx, spec, rid);
    assert TaskSound(db, ctx.task.id);
    var t' := Applied(db, ctx, spec).db.outbox;
    if rid in t'.rows && rid !in db.outbox.rows {
      var c := Handle(ctx, spec.handler);
      var e :| e in c.emits && t'.rows[rid] == O.FreshRow(DraftOf(ctx, Bumped(ctx.task, c), e));
      DraftShape(ctx, Bumped(ctx.task, c), e);
    }
  }

  // A transition that writes labels leaves its own label row as the newest one of its task.
  lemma OwnLabelRow(db: Db, ctx: Ctx, spec: Spec) returns (own: nat)
    requires Ready(db, ctx) && Fires(ctx, spec) && EmitLabels in Handle(ctx, spec.handler).emits
    ensures LabelRow(Applied(db, ctx, spec).db.outbox, ctx.task.id, own) && own >= db.outbox.nextId
  {
    var c := Handle(ctx, spec.handler);
    var after := Bumped(ctx.task, c);
    OutboxReady(db, ctx, spec);
    EmitFacts(ctx, spec.handler);
    EmitHasRow(db.outbox, ctx, after, c.emits, EmitLabels);
    var t' := Applied(db, ctx, spec).db.outbox;
    own :| IsNew(db.outbox, t', own, DraftOf(ctx, after, EmitLabels));
    assert TaskSound(db, ctx.task.id);
    DraftShape(ctx, after, EmitLabels);
  }

  lemma AppliedLatest(db: Db, ctx: Ctx, spec: Spec, rid: nat)
    requires Ready(db, ctx) && Fires(ctx, spec)
    requires LabelsSound(db, ctx.task.id) && LatestLabel(Applied(db, ctx, spec).db.outbox, ctx.task.id, rid)
    ensures Agrees(Applied(db, ctx, spec).db.outbox.rows[rid].payload.desired,
        Bumped(ctx.task, Handle(ctx, spec.handler)))
  {
    var id := ctx.task.id;
    AppliedLabelRow(db, ctx, spec, id, rid);
    if EmitLabels in Handle(ctx, spec.handler).emits {
      var own := OwnLabelRow(db, ctx, spec);
    } else {
      LabelFacts(ctx, spec);
      forall j: nat | LabelRow(db.outbox, id, j) ensures j <= rid { AppliedLabelRow(db, ctx, spec, id, j); }
      assert LatestLabel(db.outbox, id, rid);
    }
  }

  lemma AppliedUnlabelled(db: Db, ctx: Ctx, spec: Spec)
    requires Ready(db, ctx) && Fires(ctx, spec)
    requires LabelsSound(db, ctx.task.id)
    requires forall rid :: !LabelRow(Applied(db, ctx, spec).db.outbox, ctx.task.id, rid)
    ensures var after := Bumped(ctx.task, Handle(ctx, spec.handler));
            !after.critical && after.state != Cancelled && after.state != HumanReviewRequired
  {
    if EmitLabels in Handle(ctx, spec.handler).emits {
      var own := OwnLabelRow(db, ctx, spec);
    }
    LabelFacts(ctx, spec);
    forall rid ensures !LabelRow(db.outbox, ctx.task.id, rid) { AppliedLabelRow(db, ctx, spec, ctx.task.id, rid); }
  }

  lemma AppliedLabels(db: Db, ctx: Ctx, spec: Spec)
    requires Ready(db, ctx) && Fires(ctx, spec) && LabelsSound(db, ctx.task.id)
    ensures LabelsSound(Applied(db, ctx, spec).db, ctx.task.id)
  {
    var id := ctx.task.id;
    var db' := Applied(db, ctx, spec).db;
    forall rid | LatestLabel(db'.outbox, id, rid) ensures Agrees(db'.outbox.rows[rid].payload.desired, db'.tasks[id]) {
      AppliedLatest(db, ctx, spec, rid);
    }
    if forall rid :: !LabelRow(db'.outbox, id, rid) { AppliedUnlabelled(db, ctx, spec); }
  }

  // Other tasks keep their rows and their label rows.
  lemma AppliedElsewhere(db: Db, ctx: Ctx, spec: Spec, id: string)
    requires Ready(db, ctx) && Fires(ctx, spec) && id != ctx.task.id && LabelsSound(db, id)
    ensures LabelsSound(Applied(db, ctx, spec).db, id)
  {
    var db' := Applied(db, ctx, spec).db;
    forall rid: nat ensures LabelRow(db'.outbox, id, rid) <==> LabelRow(db.outbox, id, rid) {
      AppliedLabelRow(db, ctx, spec, id, rid);
    }
    forall rid
      ensures LatestLabel(db'.outbox, id, rid) ==>
      LatestLabel(db.outbox, id, rid) && db'.outbox.rows[rid] == db.outbox.rows[rid] {
      AppliedLabelRow(db, ctx, spec, id, rid);
    }
  }

  lemma AppliedKeeps(db: Db, ctx: Ctx, spec: Spec)
    requires Ready(db, ctx) && Fires(ctx, spec)
    requires forall id :: id != ctx.task.id ==> Settled(db, id)
    ensures DbOk(Applied(db, ctx, spec).db)
  {
    var db' := Applied(db, ctx, spec).db;
    forall id ensures TaskSound(db', id) && Settled(db', id) { AppliedTask(db, ctx, spec, id); }
    forall rid ensures RowSound(db', rid) { AppliedRows(db, ctx, spec, rid); }
    AppliedOutbox(db, ctx, spec, 0);
  }
}
