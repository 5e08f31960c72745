/**
 Router and projection workers over one outbox table: each router transaction and each read of a
 rebuild is a move of the router's runs, each worker step a step of the delivery protocol, in any
 order. The workers' side of such a run is a run of the delivery protocol.
 */
module EndToEnd {
  import opened Common
  import Ev = Events
  import HF = HandlerFacts
  import O = Outbox
  import D = Delivery
  import DT = DeliveryTheorems
  import Ro = Router
  import SM = StateMachine
  import T = Transitions
  import RR = RouterRuns
  import RT = RouterTheorems

  datatype Joint = Joint(run: RR.Run, world: D.World)

  datatype Act = Routes(move: RR.Move) | Works(step: D.Step)

  // A worker step is not an insert; a forced rebuild commits when the delivery protocol is ready for it.
  ghost predicate Enabled(st: Ev.Settings, j: Joint, a: Act) {
    match a
    case Works(s) => !s.Enqueue? && !s.RebuildTask?
    case Routes(m) =>
      && !m.Deliver?
      && (RR.Rebuilds(j.run, m) ==> D.RebuildReady(j.world, RR.RebuildRequest(st, j.run, m)))
  }

  ghost function Apply(cfg: D.Config, st: Ev.Settings, j: Joint, a: Act): Joint {
    if !Enabled(st, j, a) then j
    else match a
      case Works(s) =>
        var world := D.Apply(cfg, j.world, s);
        Joint(RR.Apply(st, j.run, RR.Deliver(world.table)), world)
      case Routes(m) =>
        var run := RR.Apply(st, j.run, m);
        Joint(run, D.Grown(j.world, run.db.outbox))
  }

  ghost function Play(cfg: D.Config, st: Ev.Settings, j: Joint, acts: seq<Act>): Joint
    decreases |acts|
  {
    if acts == [] then j else Play(cfg, st, Apply(cfg, st, j, acts[0]), acts[1..])
  }

  function Start(): Joint {
    Joint(RR.Start(), D.Start())
  }

  ghost predicate JointOk(j: Joint) {
    RT.RunOk(j.run) && D.Inv(j.world) && j.run.db.outbox == j.world.table
  }

  // ---- the workers' side is a run of the delivery protocol

  // Every worker step does to the table only what the router's runs allow for.
  lemma StepDelivers(cfg: D.Config, w: D.World, s: D.Step)
    requires D.Inv(w) && !s.Enqueue? && !s.RebuildTask?
    ensures RR.Delivers(w.table, D.Apply(cfg, w, s).table)
  {
    D.StepKeepsInv(cfg, w, s);
    if D.Enabled(cfg, w, s) && s.ClaimRow? {
      var c := O.Candidates(w.table, s.now);
      assert Least(c) in c;
    }
  }

  // The inserts of one transition.
  function Enqueues(ctx: Ev.Ctx, after: Ev.Task, emits: seq<T.Emit>): seq<D.Step> {
    if emits == [] then [] else [D.Enqueue(T.DraftOf(ctx, after, emits[0]))] + Enqueues(ctx, after, emits[1..])
  }

  lemma GrownBySame(w: D.World)
    requires D.Inv(w)
    ensures D.Grown(w, w.table) == w
  {
    forall l | l in D.LanesOf(w.table) ensures l in w.lanes {
      var id :| id in w.table.rows && l == w.table.rows[id].lane;
      assert D.RowLaneOk(w, id);
    }
    assert w.lanes + D.LanesOf(w.table) == w.lanes;
  }

  lemma GrownTwice(w: D.World, t1: O.Table, t2: O.Table)
    requires forall id :: id in t1.rows ==> id in t2.rows && t2.rows[id] == t1.rows[id]
    ensures D.Grown(D.Grown(w, t1), t2) == D.Grown(w, t2)
  {
    forall l | l in D.LanesOf(t1) ensures l in D.LanesOf(t2) {
      var id :| id in t1.rows && l == t1.rows[id].lane;
      assert id in t2.rows;
    }
    assert w.lanes + D.LanesOf(t1) + D.LanesOf(t2) == w.lanes + D.LanesOf(t2);
  }

  predicate OneStreamEach(emits: seq<T.Emit>) {
    forall i, j :: 0 <= i < j < |emits| ==> HF.StreamRank(emits[i]) != HF.StreamRank(emits[j])
  }

  lemma {:induction false} EmitsAreRun(cfg: D.Config, w: D.World, ctx: Ev.Ctx, after: Ev.Task, emits: seq<T.Emit>)
    requires D.Inv(w) && RR.Unblocked(w.table, after, emits) && OneStreamEach(emits)
    ensures D.Run(cfg, w, Enqueues(ctx, after, emits)) == D.Grown(w, T.EmitAll(w.table, ctx, after, emits))
    decreases |emits|
  {
    if emits == [] {
      GrownBySame(w);
    } else {
      var d, rest := T.DraftOf(ctx, after, emits[0]), emits[1..];
      RR.DraftIsNew(w.table, ctx, after, emits, emits[0]);
      D.InsertKeepsInv(w, d);
      var t1 := O.Insert(w.table, d);
      var w1 := D.Grown(w, t1);
      RR.RestUnblocked(w.table, ctx, after, emits);
      EmitsAreRun(cfg, w1, ctx, after, rest);
      var all := Enqueues(ctx, after, emits);
      assert all[0] == D.Enqueue(d) && all[1..] == Enqueues(ctx, after, rest);
      D.RunStep(cfg, w, all);
      RR.EmitAllRows(t1, ctx, after, rest);
      GrownTwice(w, t1, T.EmitAll(t1, ctx, after, rest));
    }
  }

  // The inserts of a transition that is applied.
  function Inserts(ctx: Ev.Ctx, spec: SM.Spec): seq<D.Step> {
    var c := T.Handle(ctx, spec.handler);
    Enqueues(ctx, T.Bumped(ctx.task, c), c.emits)
  }

  lemma AppliedIsRun(cfg: D.Config, w: D.World, db: Ro.Db, ctx: Ev.Ctx, spec: SM.Spec)
    requires D.Inv(w) && RR.Ready(db, ctx) && HF.Fires(ctx, spec) && db.outbox == w.table
    ensures D.Run(cfg, w, Inserts(ctx, spec)) == D.Grown(w, Ro.Applied(db, ctx, spec).db.outbox)
  {
    var c := T.Handle(ctx, spec.handler);
    RR.OutboxReady(db, ctx, spec);
    HF.EmitFacts(ctx, spec.handler);
    EmitsAreRun(cfg, w, ctx, T.Bumped(ctx.task, c), c.emits);
  }

  lemma AppliedIsSmooth(cfg: D.Config, w: D.World, db: Ro.Db, ctx: Ev.Ctx, spec: SM.Spec)
    requires D.Inv(w) && RR.Ready(db, ctx) && HF.Fires(ctx, spec) && db.outbox == w.table
    requires DueBefore(w.table, ctx.task.id, ctx.event.receivedAt + ctx.settings.retryInitial)
    ensures DT.SmoothRun(cfg, w, Inserts(ctx, spec))
  {
    var c := T.Handle(ctx, spec.handler);
    RR.OutboxReady(db, ctx, spec);
    HF.EmitFacts(ctx, spec.handler);
    assert RR.TaskSound(db, ctx.task.id);
    var after := T.Bumped(ctx.task, c);
    forall e | e in c.emits
      ensures DT.DueBy(w.table, T.DraftOf(ctx, after, e).lane, T.DraftOf(ctx, after, e).due)
    {
      RR.DraftShape(ctx, after, e);
    }
    EmitsAreSmooth(cfg, w, ctx, after, c.emits);
  }

  lemma RouteIsRun(cfg: D.Config, st: Ev.Settings, j: Joint, ev: Ev.Event) returns (steps: seq<D.Step>)
    requires JointOk(j)
    ensures D.Run(cfg, j.world, steps) == D.Grown(j.world, Ro.DbAfter(j.run.db, Ro.Route(j.run.db, st, ev)).outbox)
    ensures SmoothEvent(st, j, ev) ==> DT.SmoothRun(cfg, j.world, steps)
  {
    if RR.TookEffect(Ro.Route(j.run.db, st, ev)) {
      var base, ctx, spec := RT.Effective(j.run.db, st, ev);
      steps := Inserts(ctx, spec);
      AppliedIsRun(cfg, j.world, base, ctx, spec);
      if SmoothEvent(st, j, ev) {
        assert Ro.Applied(base, ctx, spec).report.taskId == Some(ctx.task.id);
        AppliedIsSmooth(cfg, j.world, base, ctx, spec);
      }
    } else {
      RT.Ineffective(j.run.db, st, ev);
      steps := [];
      GrownBySame(j.world);
    }
  }

  // Each act is a run of the delivery protocol, seen from the workers.
  lemma ActIsRun(cfg: D.Config, st: Ev.Settings, j: Joint, a: Act) returns (steps: seq<D.Step>)
    requires JointOk(j)
    ensures D.Run(cfg, j.world, steps) == Apply(cfg, st, j, a).world
    ensures Smooth(st, j, a) ==> DT.SmoothRun(cfg, j.world, steps)
  {
    steps := [];
    if Enabled(st, j, a) {
      match a
      case Works(s) =>
        steps := [s];
        D.RunStep(cfg, j.world, steps);
      case Routes(m) =>
        if m.RouteNext? && m.eventId in j.run.db.inbox && !j.run.db.inbox[m.eventId].processed {
          steps := RouteIsRun(cfg, st, j, j.run.db.inbox[m.eventId].event);
        } else if RR.Rebuilds(j.run, m) {
          steps := [D.RebuildTask(RR.RebuildRequest(st, j.run, m))];
          D.RunStep(cfg, j.world, steps);
        } else {
          assert RR.Apply(st, j.run, m).db.outbox == j.world.table;
          GrownBySame(j.world);
        }
    }
  }

  lemma ActKeeps(cfg: D.Config, st: Ev.Settings, j: Joint, a: Act)
    requires JointOk(j)
    ensures JointOk(Apply(cfg, st, j, a))
  {
    var steps := ActIsRun(cfg, st, j, a);
    D.RunKeepsInv(cfg, j.world, steps);
    if Enabled(st, j, a) {
      match a
      case Works(s) =>
        StepDelivers(cfg, j.world, s);
        RT.ApplyKeeps(st, j.run, RR.Deliver(D.Apply(cfg, j.world, s).table));
      case Routes(m) => RT.ApplyKeeps(st, j.run, m);
    }
  }

  lemma {:induction false} PlayKeeps(cfg: D.Config, st: Ev.Settings, j: Joint, acts: seq<Act>)
    requires JointOk(j)
    ensures JointOk(Play(cfg, st, j, acts))
    decreases |acts|
  {
    if acts != [] {
      ActKeeps(cfg, st, j, acts[0]);
      PlayKeeps(cfg, st, Apply(cfg, st, j, acts[0]), acts[1..]);
    }
  }

  lemma StartOk()
    ensures JointOk(Start())
  {
    RT.StartOk();
    D.StartInv();
  }

  ghost function Reached(cfg: D.Config, st: Ev.Settings, acts: seq<Act>): Joint {
    Play(cfg, st, Start(), acts)
  }

  lemma ReachedOk(cfg: D.Config, st: Ev.Settings, acts: seq<Act>)
    ensures JointOk(Reached(cfg, st, acts))
  {
    StartOk();
    PlayKeeps(cfg, st, Start(), acts);
  }

  lemma {:induction false} PlayIsRun(cfg: D.Config, st: Ev.Settings, j: Joint, acts: seq<Act>)
    returns (steps: seq<D.Step>)
    requires JointOk(j)
    ensures D.Run(cfg, j.world, steps) == Play(cfg, st, j, acts).world
    ensures SmoothPlay(cfg, st, j, acts) ==> DT.SmoothRun(cfg, j.world, steps)
    decreases |acts|
  {
    if acts == [] {
      steps := [];
    } else {
      var first := ActIsRun(cfg, st, j, acts[0]);
      ActKeeps(cfg, st, j, acts[0]);
      var rest := PlayIsRun(cfg, st, Apply(cfg, st, j, acts[0]), acts[1..]);
      steps := first + rest;
      D.RunConcat(cfg, j.world, first, rest);
      if SmoothPlay(cfg, st, j, acts) { DT.SmoothConcat(cfg, j.world, first, rest); }
    }
  }

  // Whatever the delivery protocol guarantees of all its runs holds of every joint run: what the
  // workers see of it, table, mirror and log, is reached by a run of the protocol.
  lemma JointIsRun(cfg: D.Config, st: Ev.Settings, acts: seq<Act>)
    ensures exists steps :: DT.Reached(cfg, steps) == Reached(cfg, st, acts).world
  {
    StartOk();
    var steps := PlayIsRun(cfg, st, Start(), acts);
    assert DT.Reached(cfg, steps) == Reached(cfg, st, acts).world;
  }

  // ---- smooth runs

  // Every row of the event's task is due no later than the rows that the event writes.
  ghost predicate SmoothEvent(st: Ev.Settings, j: Joint, ev: Ev.Event) {
    var r := Ro.Route(j.run.db, st, ev);
    RR.TookEffect(r) ==> DueBefore(j.world.table, r.report.taskId.value, ev.receivedAt + st.retryInitial)
  }

  ghost predicate DueBefore(t: O.Table, taskId: string, due: int) {
    forall id :: id in t.rows && t.rows[id].lane.taskId == taskId ==> t.rows[id].due <= due
  }

  // Due times rise along each lane, no send fails, and no rebuild is forced.
  ghost predicate Smooth(st: Ev.Settings, j: Joint, a: Act) {
    match a
    case Works(s) => DT.Smooth(j.world, s)
    case Routes(m) =>
      && (m.RouteNext? && m.eventId in j.run.db.inbox ==> SmoothEvent(st, j, j.run.db.inbox[m.eventId].event))
      && (RR.Rebuilds(j.run, m) ==> DT.Smooth(j.world, D.RebuildTask(RR.RebuildRequest(st, j.run, m))))
  }

  ghost predicate SmoothPlay(cfg: D.Config, st: Ev.Settings, j: Joint, acts: seq<Act>)
    decreases |acts|
  {
    acts == [] || (Smooth(st, j, acts[0]) && SmoothPlay(cfg, st, Apply(cfg, st, j, acts[0]), acts[1..]))
  }

  lemma {:induction false} EmitsAreSmooth(cfg: D.Config, w: D.World, ctx: Ev.Ctx, after: Ev.Task, emits: seq<T.Emit>)
    requires D.Inv(w) && RR.Unblocked(w.table, after, emits) && OneStreamEach(emits)
    requires forall e :: e in emits ==> DT.DueBy(w.table, T.DraftOf(ctx, after, e).lane, T.DraftOf(ctx, after, e).due)
    ensures DT.SmoothRun(cfg, w, Enqueues(ctx, after, emits))
    decreases |emits|
  {
    if emits != [] {
      var d, rest := T.DraftOf(ctx, after, emits[0]), emits[1..];
      RR.DraftIsNew(w.table, ctx, after, emits, emits[0]);
      D.InsertKeepsInv(w, d);
      var w1 := D.Grown(w, O.Insert(w.table, d));
      RR.RestUnblocked(w.table, ctx, after, emits);
      forall e | e in rest
        ensures DT.DueBy(w1.table, T.DraftOf(ctx, after, e).lane, T.DraftOf(ctx, after, e).due)
      {
        var i :| 0 <= i < |rest| && rest[i] == e;
        assert emits[i + 1] == e && HF.StreamRank(e) != HF.StreamRank(emits[0]);
        RR.DraftShape(ctx, after, e);
        RR.DraftShape(ctx, after, emits[0]);
      }
      assert emits[0] in emits;
      EmitsAreSmooth(cfg, w1, ctx, after, rest);
      var all := Enqueues(ctx, after, emits);
      assert all[0] == D.Enqueue(d) && all[1..] == Enqueues(ctx, after, rest);
    }
  }
}
