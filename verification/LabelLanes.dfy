/**
 What the label lanes of the mirror show (projection/forgejo_sink.py, projection/worker.py). They
 have no cursor, so a drained lane shows the row that was confirmed last, whichever that is.
 */
module LabelLanes {
  import opened Common
  import opened Idempotency
  import opened Outbox
  import opened Rebuild
  import opened Delivery
  import opened DeliveryTheorems

  predicate LabelRow(t: Table, lane: Lane, id: nat) {
    id in t.rows && t.rows[id].lane == lane && t.rows[id].payload.Labels?
  }

  function Desired(t: Table, id: nat): set<Label> {
    if id in t.rows && t.rows[id].payload.Labels? then t.rows[id].payload.desired else {}
  }

  function ManagedAt(w: World, lane: Lane): set<string> {
    LabelsAt(w.remote, lane) * MANAGED_LABELS
  }

  // Labels outside the managed allowlist survive a sync; inside it, exactly the desired ones remain.
  lemma SyncKeepsManualLabels(current: set<string>, desired: set<Label>)
    ensures var after := DiffLabels(current, MANAGED_LABELS, LabelNames(desired));
            after - MANAGED_LABELS == current - MANAGED_LABELS && after * MANAGED_LABELS == LabelNames(desired)
  {
    forall x | x in LabelNames(desired) ensures x in MANAGED_LABELS {
      var l :| l in desired && x == LabelName(l);
    }
  }

  lemma NamesInjective(a: set<Label>, b: set<Label>)
    ensures LabelNames(a) == LabelNames(b) <==> a == b
  {
    if LabelNames(a) == LabelNames(b) {
      forall l ensures l in a <==> l in b {
        assert l in a ==> LabelName(l) in LabelNames(a);
        assert l in b ==> LabelName(l) in LabelNames(b);
      }
    }
  }

  // The row of the lane's last projection_sent event.
  function LastSent(t: Table, events: seq<SysEvent>, lane: Lane): Option<nat> {
    if events == [] then None
    else
      var n := |events| - 1;
      if events[n].ProjectionSent? && InLane(t, lane, events[n].id) then Some(events[n].id)
      else LastSent(t, events[..n], lane)
  }

  function LastDesired(w: World, lane: Lane): set<Label> {
    var last := LastSent(w.table, w.events, lane);
    if last.None? then {} else Desired(w.table, last.value)
  }

  // ---- the invariant

  predicate EventOk(w: World, k: nat) {
    k < |w.events| && w.events[k].ProjectionSent? ==>
      w.events[k].id in w.table.rows && w.table.rows[w.events[k].id].sent.Some?
  }

  // A sent label row has been confirmed.
  predicate Logged(w: World, id: nat) {
    id in w.table.rows && w.table.rows[id].lane.stream == TaskLabelSync && w.table.rows[id].sent.Some? ==>
      LastSent(w.table, w.events, w.table.rows[id].lane).Some?
  }

  predicate Settled(w: World, lane: Lane) {
    ManagedAt(w, lane) == LabelNames(LastDesired(w, lane))
  }

  predicate Pending(w: World, lane: Lane, id: nat) {
    LabelRow(w.table, lane, id) && w.table.rows[id].sent.None?
        && ManagedAt(w, lane) == LabelNames(w.table.rows[id].payload.desired)
  }

  // On an issue of one task, the labels are those of the row confirmed last, or of an unsent row, whose
  // send failed or is not confirmed yet.
  ghost predicate LaneShown(w: World, lane: Lane) {
    lane.stream == TaskLabelSync && Alone(w, lane) ==> Settled(w, lane) || exists id :: Pending(w, lane, id)
  }

  predicate WorkerShown(w: World, v: string) {
    var p := PhaseOf(w, v);
    p.Delivered? && p.id in w.table.rows ==>
      var lane := w.table.rows[p.id].lane;
      lane.stream == TaskLabelSync && Alone(w, lane) ==> Pending(w, lane, p.id)
  }

  ghost predicate LabelInv(w: World) {
    && (forall k :: EventOk(w, k))
    && (forall id :: Logged(w, id))
    && (forall lane :: LaneShown(w, lane))
    && (forall v :: WorkerShown(w, v))
  }

  // ---- the last confirmed row

  lemma {:induction false} LastKept(t: Table, t': Table, events: seq<SysEvent>, lane: Lane)
    requires forall k :: 0 <= k < |events| && events[k].ProjectionSent? ==>
      events[k].id in t.rows && events[k].id in t'.rows && t'.rows[events[k].id].lane == t.rows[events[k].id].lane
    ensures LastSent(t', events, lane) == LastSent(t, events, lane)
  {
    if events != [] { LastKept(t, t', events[..|events| - 1], lane); }
  }

  lemma {:induction false} LastIs(t: Table, events: seq<SysEvent>, lane: Lane)
    ensures var last := LastSent(t, events, lane); last.Some? ==>
      && last.value in t.rows && t.rows[last.value].lane == lane
      && exists k :: 0 <= k < |events| && events[k] == ProjectionSent(last.value)
  {
    if events != [] { LastIs(t, events[..|events| - 1], lane); }
  }

  // Failure and reclaim events do not count.
  lemma {:induction false} LastAppend(t: Table, events: seq<SysEvent>, more: seq<SysEvent>, lane: Lane)
    requires forall e :: e in more ==> !e.ProjectionSent?
    ensures LastSent(t, events + more, lane) == LastSent(t, events, lane)
  {
    var all := events + more;
    if more == [] {
      assert all == events;
    } else {
      assert all[..|all| - 1] == events + more[..|more| - 1];
      LastAppend(t, events, more[..|more| - 1], lane);
    }
  }

  // ---- preservation

  // Steps that leave the mirror and the sent marks of label rows alone: rows keep what the labels
  // depend on, and new label rows are unsent.
  ghost predicate Carries(w: World, w': World) {
    && w'.remote == w.remote && w.lanes <= w'.lanes
    && w.events <= w'.events && (forall k :: |w.events| <= k < |w'.events| ==> !w'.events[k].ProjectionSent?)
    && (forall id :: CarriedRow(w.table, w'.table, id))
    && (forall v :: CarriedPhase(w, w', v))
  }

  predicate CarriedRow(t: Table, t': Table, id: nat) {
    if id in t.rows then
      && id in t'.rows && t'.rows[id].lane == t.rows[id].lane && t'.rows[id].payload == t.rows[id].payload
      && (t.rows[id].sent.Some? ==> t'.rows[id].sent.Some?)
      && (t.rows[id].lane.stream == TaskLabelSync ==> t'.rows[id].sent == t.rows[id].sent)
    else id in t'.rows ==> t'.rows[id].sent.None?
  }

  predicate CarriedPhase(w: World, w': World, v: string) {
    PhaseOf(w', v).Delivered? ==> PhaseOf(w', v) == PhaseOf(w, v) && PhaseOf(w, v).id in w.table.rows
  }

  lemma CarriedLast(w: World, w': World, lane: Lane)
    requires (forall k :: EventOk(w, k)) && Carries(w, w')
    ensures LastSent(w'.table, w'.events, lane) == LastSent(w.table, w.events, lane)
    ensures LastDesired(w', lane) == LastDesired(w, lane)
  {
    forall k: nat | k < |w.events| && w.events[k].ProjectionSent?
      ensures w.events[k].id in w.table.rows && w.events[k].id in w'.table.rows
      ensures w'.table.rows[w.events[k].id].lane == w.table.rows[w.events[k].id].lane
    {
      assert EventOk(w, k) && CarriedRow(w.table, w'.table, w.events[k].id);
    }
    LastKept(w.table, w'.table, w.events, lane);
    var more := w'.events[|w.events|..];
    assert w'.events == w.events + more;
    LastAppend(w'.table, w.events, more, lane);
    LastIs(w.table, w.events, lane);
    var last := LastSent(w.table, w.events, lane);
    if last.Some? { assert CarriedRow(w.table, w'.table, last.value); }
  }

  lemma CarriedKeeps(w: World, w': World)
    requires LabelInv(w) && Carries(w, w')
    ensures LabelInv(w')
  {
    forall k: nat ensures EventOk(w', k) {
      if k < |w.events| && w.events[k].ProjectionSent? {
        assert EventOk(w, k) && w'.events[k] == w.events[k] && CarriedRow(w.table, w'.table, w.events[k].id);
      }
    }
    forall id ensures Logged(w', id) {
      assert Logged(w, id) && CarriedRow(w.table, w'.table, id);
      if id in w.table.rows { CarriedLast(w, w', w.table.rows[id].lane); }
    }
    forall lane ensures LaneShown(w', lane) {
      assert LaneShown(w, lane);
      CarriedLast(w, w', lane);
      if id :| Pending(w, lane, id) {
        assert CarriedRow(w.table, w'.table, id);
        assert lane.stream == TaskLabelSync ==> Pending(w', lane, id);
      }
    }
    forall v ensures WorkerShown(w', v) {
      assert CarriedPhase(w, w', v) && WorkerShown(w, v);
      if PhaseOf(w', v).Delivered? { assert CarriedRow(w.table, w'.table, PhaseOf(w, v).id); }
    }
  }

  lemma OtherCarries(cfg: Config, w: World, s: Step)
    requires Inv(w) && Enabled(cfg, w, s) && !s.Send? && !s.Confirm? && !(s.RebuildTask? && s.request.force)
    ensures Carries(w, Apply(cfg, w, s))
  {
    var w' := Apply(cfg, w, s);
    if s.Check? { assert WorkerOk(w, s.worker); }
    forall id ensures CarriedRow(w.table, w'.table, id) {
      assert RowOk(w.table, id);
      if s.Enqueue? {
        InsertKeepsTableOk(w.table, s.draft);
      } else if s.RebuildTask? {
        InsertKeepsTableOk(w.table, SnapshotDraft(s.request));
        InsertKeepsTableOk(Insert(w.table, SnapshotDraft(s.request)), LabelDraft(s.request));
      }
    }
    forall v ensures CarriedPhase(w, w', v) { assert WorkerOk(w, v); }
  }

  lemma SendKeeps(cfg: Config, w: World, worker: string, outcome: Outcome)
    requires Inv(w) && LabelInv(w) && Enabled(cfg, w, Send(worker, outcome))
    ensures LabelInv(DoSend(w, worker, outcome))
  {
    var w' := DoSend(w, worker, outcome);
    var p := PhaseOf(w, worker);
    var row := w.table.rows[p.id];
    assert WorkerOk(w, worker) && RowOk(w.table, p.id) && RowLaneOk(w, p.id);
    var shown := row.lane.stream == TaskLabelSync && outcome != FailedClean;
    if shown {
      SyncKeepsManualLabels(LabelsAt(w.remote, row.lane), row.payload.desired);
      assert Pending(w', row.lane, p.id);
    }
    forall k: nat ensures EventOk(w', k) { assert EventOk(w, k); }
    forall id ensures Logged(w', id) { assert Logged(w, id); }
    forall lane ensures LaneShown(w', lane) {
      assert LaneShown(w, lane);
      if !(shown && lane == row.lane) && lane.stream == TaskLabelSync && Alone(w', lane) {
        OtherLabels(cfg, w, worker, outcome, lane);
        if id :| Pending(w, lane, id) { assert Pending(w', lane, id); }
      }
    }
    forall v ensures WorkerShown(w', v) {
      assert WorkerShown(w, v) && WorkerOk(w, v);
      if v != worker && PhaseOf(w, v).Delivered? {
        Apart(w, v, worker);
        var lane := w.table.rows[PhaseOf(w, v).id].lane;
        if lane.stream == TaskLabelSync && Alone(w', lane) { OtherLabels(cfg, w, worker, outcome, lane); }
      }
    }
  }

  // A send leaves the labels of an issue alone that none but another task's rows are for.
  lemma OtherLabels(cfg: Config, w: World, worker: string, outcome: Outcome, lane: Lane)
    requires Inv(w) && Enabled(cfg, w, Send(worker, outcome)) && lane.stream == TaskLabelSync && Alone(w, lane)
    requires w.table.rows[PhaseOf(w, worker).id].lane != lane || outcome == FailedClean
        || PhaseOf(w, worker).Looked?
    ensures ManagedAt(DoSend(w, worker, outcome), lane) == ManagedAt(w, lane)
  {
    assert RowLaneOk(w, PhaseOf(w, worker).id) && WorkerOk(w, worker);
  }

  // Confirming a label row makes it the lane's last one, and its labels are shown.
  lemma ConfirmKeeps(cfg: Config, w: World, worker: string)
    requires Inv(w) && LabelInv(w) && Enabled(cfg, w, Confirm(worker))
    ensures LabelInv(DoConfirm(w, worker))
  {
    var w' := DoConfirm(w, worker);
    var p := PhaseOf(w, worker);
    var row := w.table.rows[p.id];
    assert WorkerOk(w, worker) && WorkerShown(w, worker);
    forall k: nat ensures EventOk(w', k) { assert EventOk(w, k); }
    forall lane
      ensures LastSent(w'.table, w'.events, lane)
           == if lane == row.lane then Some(p.id) else LastSent(w.table, w.events, lane)
    {
      ConfirmLast(w, worker, lane);
    }
    forall id ensures Logged(w', id) { assert Logged(w, id); }
    forall lane ensures LaneShown(w', lane) {
      assert LaneShown(w, lane);
      LastIs(w.table, w.events, lane);
      if lane != row.lane {
        if id :| Pending(w, lane, id) { assert Pending(w', lane, id); }
      }
    }
    forall v ensures WorkerShown(w', v) {
      assert WorkerShown(w, v) && WorkerOk(w, v);
      if v != worker && !PhaseOf(w, v).Idle? { Apart(w, v, worker); }
    }
  }

  lemma ConfirmLast(w: World, worker: string, lane: Lane)
    requires Inv(w) && LabelInv(w) && PhaseOf(w, worker).Delivered? && PhaseOf(w, worker).id in w.table.rows
    ensures var w', p := DoConfirm(w, worker), PhaseOf(w, worker);
            LastSent(w'.table, w'.events, lane)
              == if lane == w.table.rows[p.id].lane then Some(p.id) else LastSent(w.table, w.events, lane)
  {
    var w' := DoConfirm(w, worker);
    forall k: nat | k < |w.events| && w.events[k].ProjectionSent?
      ensures w.events[k].id in w.table.rows && w.events[k].id in w'.table.rows
      ensures w'.table.rows[w.events[k].id].lane == w.table.rows[w.events[k].id].lane
    {
      assert EventOk(w, k);
    }
    LastKept(w.table, w'.table, w.events, lane);
    assert w'.events[..|w'.events| - 1] == w.events;
  }

  lemma ForcedLast(w: World, q: Request, lane: Lane)
    requires Inv(w) && LabelInv(w) && q.force && RebuildReady(w, q)
    ensures var w' := Grown(w, Rebuilt(w.table, q));
            LastSent(w'.table, w'.events, lane) == LastSent(w.table, w.events, lane)
                && LastDesired(w', lane) == LastDesired(w, lane)
  {
    var t' := Rebuilt(w.table, q);
    forall k: nat | k < |w.events| && w.events[k].ProjectionSent?
      ensures w.events[k].id in w.table.rows && w.events[k].id in t'.rows
          && t'.rows[w.events[k].id] == w.table.rows[w.events[k].id]
    {
      assert EventOk(w, k);
      ForcedRow(w, q, w.events[k].id);
    }
    LastKept(w.table, t', w.events, lane);
    LastIs(w.table, w.events, lane);
  }

  // What a forced rebuild leaves of a label lane of its task: the row confirmed last is still shown,
  // or the row it enqueues itself.
  ghost predicate StaysShown(w: World, q: Request, lane: Lane) {
    || Settled(w, lane)
    || (lane == LabelDraft(q).lane && Conflicting(Base(w.table, q), LabelDraft(q)) == {}
        && ManagedAt(w, lane) == LabelNames(LabelDraft(q).payload.desired))
  }

  // It deletes every other unsent row, the one whose labels are shown among them.
  lemma ForcedShown(w: World, q: Request, lane: Lane)
    requires Inv(w) && LabelInv(w) && q.force && RebuildReady(w, q)
    requires lane.stream == TaskLabelSync && lane.taskId == q.view.taskId
    requires Alone(Grown(w, Rebuilt(w.table, q)), lane)
    ensures LaneShown(Grown(w, Rebuilt(w.table, q)), lane) <==> StaysShown(w, q, lane)
  {
    var w' := Grown(w, Rebuilt(w.table, q));
    ForcedLast(w, q, lane);
    assert ManagedAt(w', lane) == ManagedAt(w, lane);
    if id :| Pending(w', lane, id) { ForcedPending(w, q, lane, id); }
    if StaysShown(w, q, lane) && !Settled(w, lane) { FreshIsPending(w, q); }
  }

  // The only unsent label row that it leaves is its own.
  lemma ForcedPending(w: World, q: Request, lane: Lane, id: nat)
    requires Inv(w) && q.force && lane.stream == TaskLabelSync && lane.taskId == q.view.taskId
    requires Pending(Grown(w, Rebuilt(w.table, q)), lane, id)
    ensures Rebuilt(w.table, q).rows[id] == FreshRow(LabelDraft(q))
    ensures Conflicting(Base(w.table, q), LabelDraft(q)) == {}
  {
    var b := Base(w.table, q);
    var mid := Insert(b, SnapshotDraft(q));
    BaseKeepsTableOk(w.table, q);
    OtherStreamUnmoved(b, SnapshotDraft(q), LabelDraft(q));
    ForcedLeavesOnlyCurrent(w.table, q, id);
    InsertKeepsTableOk(b, SnapshotDraft(q));
    assert RowOk(w.table, id);
    assert forall j :: j in mid.rows && j !in b.rows ==> mid.rows[j].payload.Snapshot?;
    assert id !in mid.rows;
  }

  lemma FreshIsPending(w: World, q: Request)
    requires Inv(w) && q.force && Conflicting(Base(w.table, q), LabelDraft(q)) == {}
    requires ManagedAt(w, LabelDraft(q).lane) == LabelNames(LabelDraft(q).payload.desired)
    ensures exists id :: Pending(Grown(w, Rebuilt(w.table, q)), LabelDraft(q).lane, id)
  {
    var b := Base(w.table, q);
    var mid := Insert(b, SnapshotDraft(q));
    BaseKeepsTableOk(w.table, q);
    OtherStreamUnmoved(b, SnapshotDraft(q), LabelDraft(q));
    assert Pending(Grown(w, Rebuilt(w.table, q)), LabelDraft(q).lane, mid.nextId);
  }

  // A label lane of the request's task on an issue that no other task's labels are for.
  predicate OwnLabels(w: World, q: Request, lane: Lane) {
    lane.stream == TaskLabelSync && lane.taskId == q.view.taskId && Alone(Grown(w, Rebuilt(w.table, q)), lane)
  }

  lemma ForcedKeeps(w: World, q: Request)
    requires Inv(w) && LabelInv(w) && q.force && RebuildReady(w, q)
    requires forall lane: Lane :: OwnLabels(w, q, lane) ==> StaysShown(w, q, lane)
    ensures LabelInv(Grown(w, Rebuilt(w.table, q)))
  {
    var w' := Grown(w, Rebuilt(w.table, q));
    forall k: nat ensures EventOk(w', k) {
      assert EventOk(w, k);
      if k < |w.events| && w.events[k].ProjectionSent? { ForcedRow(w, q, w.events[k].id); }
    }
    forall id ensures Logged(w', id) {
      ForcedRow(w, q, id);
      assert Logged(w, id);
      if id in w.table.rows { ForcedLast(w, q, w.table.rows[id].lane); }
    }
    forall lane ensures LaneShown(w', lane) {
      assert LaneShown(w, lane);
      assert ManagedAt(w', lane) == ManagedAt(w, lane);
      ForcedLast(w, q, lane);
      if lane.stream == TaskLabelSync && Alone(w', lane) {
        if lane.taskId == q.view.taskId {
          assert OwnLabels(w, q, lane);
          ForcedShown(w, q, lane);
        } else if id :| Pending(w, lane, id) {
          ForcedRow(w, q, id);
          assert Pending(w', lane, id);
        }
      }
    }
    forall v ensures WorkerShown(w', v) {
      assert WorkerShown(w, v) && WorkerOk(w, v);
      if !PhaseOf(w, v).Idle? { ForcedRow(w, q, PhaseOf(w, v).id); }
    }
  }

  // The runs of the theorem: any steps, and forced rebuilds that leave the lanes of their task
  // shown, as they do unless a send of such a lane failed after its effect.
  ghost predicate Calm(w: World, s: Step) {
    s.RebuildTask? && s.request.force ==>
      forall lane: Lane :: OwnLabels(w, s.request, lane) ==> StaysShown(w, s.request, lane)
  }

  ghost predicate CalmRun(cfg: Config, w: World, steps: seq<Step>)
    decreases |steps|
  {
    steps == [] || (Calm(w, steps[0]) && CalmRun(cfg, Apply(cfg, w, steps[0]), steps[1..]))
  }

  // Runs without a forced rebuild are among them, whatever fails in them.
  lemma {:induction false} UnforcedRunIsCalm(cfg: Config, w: World, steps: seq<Step>)
    requires forall s :: s in steps && s.RebuildTask? ==> !s.request.force
    ensures CalmRun(cfg, w, steps)
    decreases |steps|
  {
    if steps != [] {
      assert steps[0] in steps;
      UnforcedRunIsCalm(cfg, Apply(cfg, w, steps[0]), steps[1..]);
    }
  }

  lemma StepKeepsLabels(cfg: Config, w: World, s: Step)
    requires Inv(w) && LabelInv(w) && Calm(w, s)
    ensures LabelInv(Apply(cfg, w, s))
  {
    if Enabled(cfg, w, s) {
      if s.Send? {
        SendKeeps(cfg, w, s.worker, s.outcome);
      } else if s.Confirm? {
        ConfirmKeeps(cfg, w, s.worker);
      } else if s.RebuildTask? && s.request.force {
        ForcedKeeps(w, s.request);
      } else {
        OtherCarries(cfg, w, s);
        CarriedKeeps(w, Apply(cfg, w, s));
      }
    }
  }

  lemma {:induction false} RunKeepsLabels(cfg: Config, w: World, steps: seq<Step>)
    requires Inv(w) && LabelInv(w) && CalmRun(cfg, w, steps)
    ensures LabelInv(Run(cfg, w, steps))
    decreases |steps|
  {
    if steps != [] {
      StepKeepsInv(cfg, w, steps[0]);
      StepKeepsLabels(cfg, w, steps[0]);
      RunKeepsLabels(cfg, Apply(cfg, w, steps[0]), steps[1..]);
    }
  }

  // ---- runs that are calm by their events

  // The lanes with a send that took effect and was not confirmed since.
  ghost function OpenAfter(cfg: Config, w: World, s: Step, open: set<Lane>): set<Lane> {
    if !Enabled(cfg, w, s) then open
    else match s
      case Send(worker, outcome) =>
        if outcome == FailedClean then open else open + {w.table.rows[PhaseOf(w, worker).id].lane}
      case Confirm(worker) => open - {w.table.rows[PhaseOf(w, worker).id].lane}
      case _ => open
  }

  // Every forced rebuild finds the label sends of its task confirmed.
  ghost predicate ConfirmedRun(cfg: Config, w: World, steps: seq<Step>, open: set<Lane>)
    decreases |steps|
  {
    steps == [] ||
    (var s := steps[0];
     && (s.RebuildTask? && s.request.force ==>
           forall lane :: lane in open && lane.stream == TaskLabelSync ==> lane.taskId != s.request.view.taskId)
     && ConfirmedRun(cfg, Apply(cfg, w, s), steps[1..], OpenAfter(cfg, w, s, open)))
  }

  predicate ClosedSettled(w: World, open: set<Lane>, lane: Lane) {
    lane.stream == TaskLabelSync && Alone(w, lane) && lane !in open ==> Settled(w, lane)
  }

  lemma StepKeepsClosed(cfg: Config, w: World, s: Step, open: set<Lane>, lane: Lane)
    requires Inv(w) && LabelInv(w) && Enabled(cfg, w, s) && ClosedSettled(w, open, lane)
    ensures ClosedSettled(Apply(cfg, w, s), OpenAfter(cfg, w, s, open), lane)
  {
    var w' := Apply(cfg, w, s);
    if lane.stream == TaskLabelSync && Alone(w', lane) && lane !in OpenAfter(cfg, w, s, open) {
      assert Alone(w, lane);
      if s.Send? {
        OtherLabels(cfg, w, s.worker, s.outcome, lane);
      } else if s.Confirm? {
        assert WorkerOk(w, s.worker) && WorkerShown(w, s.worker);
        ConfirmLast(w, s.worker, lane);
        LastIs(w.table, w.events, lane);
      } else if s.RebuildTask? && s.request.force {
        ForcedLast(w, s.request, lane);
      } else {
        OtherCarries(cfg, w, s);
        CarriedLast(w, w', lane);
      }
    }
  }

  lemma {:induction false} ConfirmedRunIsCalm(cfg: Config, w: World, steps: seq<Step>, open: set<Lane>)
    requires Inv(w) && LabelInv(w) && (forall lane :: ClosedSettled(w, open, lane))
    requires ConfirmedRun(cfg, w, steps, open)
    ensures CalmRun(cfg, w, steps)
    decreases |steps|
  {
    if steps != [] {
      var s := steps[0];
      assert Calm(w, s) by {
        if s.RebuildTask? && s.request.force {
          forall lane: Lane | OwnLabels(w, s.request, lane) ensures StaysShown(w, s.request, lane) {
            assert ClosedSettled(w, open, lane) && Alone(w, lane);
          }
        }
      }
      StepKeepsInv(cfg, w, s);
      StepKeepsLabels(cfg, w, s);
      var w', open' := Apply(cfg, w, s), OpenAfter(cfg, w, s, open);
      forall lane ensures ClosedSettled(w', open', lane) {
        if Enabled(cfg, w, s) { StepKeepsClosed(cfg, w, s, open, lane); }
      }
      ConfirmedRunIsCalm(cfg, w', steps[1..], open');
    }
  }

  // A run is calm if no forced rebuild comes between a label send of its task that took effect and the next
  // confirmed one, whatever else fails in it.
  lemma RebuildAfterConfirmIsCalm(cfg: Config, steps: seq<Step>)
    requires ConfirmedRun(cfg, Start(), steps, {})
    ensures CalmRun(cfg, Start(), steps)
  {
    StartInv();
    StartLabels();
    forall lane ensures ClosedSettled(Start(), {}, lane) {
      assert ManagedAt(Start(), lane) == {} == LabelNames({});
    }
    ConfirmedRunIsCalm(cfg, Start(), steps, {});
  }

  // ---- drained label lanes

  lemma StartLabels()
    ensures LabelInv(Start())
  {
    forall lane ensures LaneShown(Start(), lane) {
      assert ManagedAt(Start(), lane) == {} == LabelNames({});
    }
  }

  // Once the label lane of an issue of one task is drained, the issue carries the labels of the row
  // confirmed last, failed sends, crashes and reclaims included, and without rows no managed label. So
  // it carries the labels of the newest row exactly when that row and the one confirmed last desire the
  // same labels.
  lemma DrainedLabels(cfg: Config, steps: seq<Step>, lane: Lane, newest: nat)
    requires CalmRun(cfg, Start(), steps) && lane.stream == TaskLabelSync
    requires AllSent(Reached(cfg, steps).table, lane) && Alone(Reached(cfg, steps), lane)
    ensures var w := Reached(cfg, steps);
            && Settled(w, lane)
            && (LabelRow(w.table, lane, newest) ==>
                  && LastSent(w.table, w.events, lane).Some?
                  && (ManagedAt(w, lane) == LabelNames(Desired(w.table, newest)) <==>
                       LastDesired(w, lane) == Desired(w.table, newest)))
  {
    StartInv();
    StartLabels();
    RunKeepsLabels(cfg, Start(), steps);
    var w := Reached(cfg, steps);
    assert LaneShown(w, lane);
    if LabelRow(w.table, lane, newest) {
      assert Logged(w, newest);
      NamesInjective(LastDesired(w, lane), w.table.rows[newest].payload.desired);
    }
  }

  // ---- runs without a failed send

  // No sent row of the lane is newer than the one confirmed last.
  ghost predicate LastIsNewest(w: World, lane: Lane) {
    lane.stream == TaskLabelSync ==>
      forall id :: id in w.table.rows && w.table.rows[id].lane == lane && w.table.rows[id].sent.Some? ==>
        var last := LastSent(w.table, w.events, lane);
        last.Some? && id <= last.value
  }

  lemma {:induction false} SmoothRunIsCalm(cfg: Config, w: World, steps: seq<Step>)
    requires SmoothRun(cfg, w, steps)
    ensures CalmRun(cfg, w, steps)
    decreases |steps|
  {
    if steps != [] { SmoothRunIsCalm(cfg, Apply(cfg, w, steps[0]), steps[1..]); }
  }

  lemma StepKeepsNewest(cfg: Config, w: World, s: Step, lane: Lane)
    requires Inv(w) && Fifo(w) && LabelInv(w) && Smooth(w, s) && Enabled(cfg, w, s) && LastIsNewest(w, lane)
    ensures LastIsNewest(Apply(cfg, w, s), lane)
  {
    if s.Confirm? {
      ConfirmKeepsNewest(w, s.worker, lane);
    } else if !s.Send? {
      OtherCarries(cfg, w, s);
      CarriedKeepsNewest(w, Apply(cfg, w, s), lane);
    }
  }

  lemma ConfirmKeepsNewest(w: World, worker: string, lane: Lane)
    requires Inv(w) && Fifo(w) && LabelInv(w) && LastIsNewest(w, lane)
    requires PhaseOf(w, worker).Delivered? && PhaseOf(w, worker).id in w.table.rows
    ensures LastIsNewest(DoConfirm(w, worker), lane)
  {
    var p := PhaseOf(w, worker);
    assert WorkerOk(w, worker);
    ConfirmLast(w, worker, lane);
    forall id | id in w.table.rows && w.table.rows[id].lane == lane && w.table.rows[id].sent.Some?
        && lane == w.table.rows[p.id].lane
      ensures id <= p.id
    {
      assert InOrder(w.table, p.id, id);
    }
  }

  lemma CarriedKeepsNewest(w: World, w': World, lane: Lane)
    requires (forall k :: EventOk(w, k)) && Carries(w, w') && LastIsNewest(w, lane)
    ensures LastIsNewest(w', lane)
  {
    CarriedLast(w, w', lane);
    if lane.stream == TaskLabelSync {
      forall id | id in w'.table.rows && w'.table.rows[id].lane == lane && w'.table.rows[id].sent.Some?
        ensures id in w.table.rows && w.table.rows[id].lane == lane && w.table.rows[id].sent.Some?
      {
        assert CarriedRow(w.table, w'.table, id);
      }
    }
  }

  lemma {:induction false} RunKeepsNewest(cfg: Config, w: World, steps: seq<Step>, lane: Lane)
    requires Inv(w) && Fifo(w) && LabelInv(w) && SmoothRun(cfg, w, steps) && LastIsNewest(w, lane)
    ensures LastIsNewest(Run(cfg, w, steps), lane)
    decreases |steps|
  {
    if steps != [] {
      StepKeepsInv(cfg, w, steps[0]);
      StepKeepsFifo(cfg, w, steps[0]);
      StepKeepsLabels(cfg, w, steps[0]);
      if Enabled(cfg, w, steps[0]) { StepKeepsNewest(cfg, w, steps[0], lane); }
      RunKeepsNewest(cfg, Apply(cfg, w, steps[0]), steps[1..], lane);
    }
  }

  // In a smooth run the row confirmed last is the newest, so a drained label lane shows exactly
  // the managed labels of its newest row.
  lemma LabelsConverge(cfg: Config, steps: seq<Step>, lane: Lane, newest: nat)
    requires SmoothRun(cfg, Start(), steps) && lane.stream == TaskLabelSync && Alone(Reached(cfg, steps), lane)
    requires var t := Reached(cfg, steps).table;
             LabelRow(t, lane, newest) && AllSent(t, lane) && forall j: nat :: InLane(t, lane, j) ==> j <= newest
    ensures var w := Reached(cfg, steps); ManagedAt(w, lane) == LabelNames(w.table.rows[newest].payload.desired)
  {
    StartInv();
    StartLabels();
    SmoothRunIsCalm(cfg, Start(), steps);
    DrainedLabels(cfg, steps, lane, newest);
    RunKeepsNewest(cfg, Start(), steps, lane);
    var w := Reached(cfg, steps);
    LastIs(w.table, w.events, lane);
    assert InLane(w.table, lane, LastSent(w.table, w.events, lane).value);
  }
}
