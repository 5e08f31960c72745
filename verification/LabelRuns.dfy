// Runs after which an issue shows other labels than its newest row: failed sends and a forced rebuild.
module LabelRuns {
  import opened Common
  import opened Idempotency
  import opened Outbox
  import opened Rebuild
  import opened Delivery
  import opened DeliveryTheorems
  import opened LabelLanes

  const LANE := Lane("t", TaskLabelSync, "7")

  function LabelRowDraft(rev: nat, desired: set<Label>): Draft {
    Draft(LANE, "e", Labels(desired), rev, LabelKey("t", "7", rev, desired), 0)
  }

  const CFG := Config(60, 3600, 50, 86400, 600)

  function Round(worker: string, now: int, outcome: Outcome): seq<Step> {
    [ClaimRow(worker, now), Check(worker), Send(worker, outcome), Ending(worker, outcome)]
  }

  function Ending(worker: string, outcome: Outcome): Step {
    if outcome == Success then Confirm(worker) else Reschedule(worker)
  }

  lemma RunFour(cfg: Config, w: World, a: Step, b: Step, c: Step, d: Step)
    ensures Run(cfg, w, [a, b, c, d]) == Apply(cfg, Apply(cfg, Apply(cfg, Apply(cfg, w, a), b), c), d)
  {
    RunStep(cfg, w, [a, b, c, d]);
    assert [a, b, c, d][1..] == [b, c, d];
    var w1 := Apply(cfg, w, a);
    RunStep(cfg, w1, [b, c, d]);
    assert [b, c, d][1..] == [c, d];
    var w2 := Apply(cfg, w1, b);
    RunStep(cfg, w2, [c, d]);
    assert [c, d][1..] == [d];
    RunStep(cfg, Apply(cfg, w2, c), [d]);
    assert [d][1..] == [];
  }

  function Touched(r: Remote, row: Row, outcome: Outcome): Remote {
    if outcome == FailedClean then r else Effect(r, row)
  }

  // One undisturbed round of one worker on a label row.
  function AfterRound(cfg: Config, w: World, worker: string, now: int, id: nat, outcome: Outcome): World
    requires id in w.table.rows
  {
    var row := w.table.rows[id];
    var attempt := row.attempts + 1;
    var failed := [SendFailed(id, attempt)];
    var remote := Touched(w.remote, row, outcome);
    if outcome == Success then
      World(WithRow(w.table, id, row.(claim := Some(Claim(worker, now)), sent := Some(now))),
            w.events + [ProjectionSent(id)], w.workers[worker := Idle], remote, w.lanes)
    else
      World(WithRow(w.table, id, row.(claim := None, due := now + Backoff(cfg, attempt), attempts := attempt)),
            w.events + if ShouldDegrade(cfg, row, attempt, now) then failed + [InfraFatal(id, attempt)] else failed,
            w.workers[worker := Idle], remote, w.lanes)
  }

  lemma LabelRound(cfg: Config, w: World, worker: string, now: int, id: nat, outcome: Outcome)
    requires PhaseOf(w, worker).Idle? && Candidates(w.table, now) != {} && id == Least(Candidates(w.table, now))
    requires id in w.table.rows && w.table.rows[id].lane.stream == TaskLabelSync && w.table.rows[id].claim.None?
    ensures Run(cfg, w, Round(worker, now, outcome)) == AfterRound(cfg, w, worker, now, id, outcome)
  {
    RunFour(cfg, w, ClaimRow(worker, now), Check(worker), Send(worker, outcome), Ending(worker, outcome));
    var claimed := w.table.rows[id].(claim := Some(Claim(worker, now)));
    var t1 := WithRow(w.table, id, claimed);
    var w1 := World(t1, w.events, w.workers[worker := Claimed(id, now)], w.remote, w.lanes);
    assert Apply(cfg, w, ClaimRow(worker, now)) == w1;
    var w2 := World(t1, w.events, w.workers[worker := Cleared(id, now)], w.remote, w.lanes);
    CheckPasses(cfg, w1, w2, worker, id, now);
    var w3 := World(t1, w.events,
        w.workers[worker := if outcome == Success then Delivered(id, now) else Faulted(id, now)],
                    Touched(w.remote, claimed, outcome), w.lanes);
    SendPasses(cfg, w2, w3, worker, id, now, outcome);
    LastPasses(cfg, w, w3, worker, id, now, outcome);
  }

  lemma CheckPasses(cfg: Config, w1: World, w2: World, worker: string, id: nat, now: int)
    requires id in w1.table.rows && w1.table.rows[id].lane.stream == TaskLabelSync
    requires PhaseOf(w1, worker) == Claimed(id, now) && w2 == w1.(workers := w2.workers)
    requires w2.workers == w1.workers[worker := Cleared(id, now)]
    ensures Apply(cfg, w1, Check(worker)) == w2
  {
  }

  lemma SendPasses(cfg: Config, w2: World, w3: World, worker: string, id: nat, now: int, outcome: Outcome)
    requires id in w2.table.rows && w2.table.rows[id].lane.stream == TaskLabelSync
        && PhaseOf(w2, worker) == Cleared(id, now)
    requires w3.table == w2.table && w3.events == w2.events && w3.lanes == w2.lanes
    requires w3.workers == w2.workers[worker := if outcome == Success then Delivered(id, now) else Faulted(id, now)]
    requires w3.remote == Touched(w2.remote, w2.table.rows[id], outcome)
    ensures Apply(cfg, w2, Send(worker, outcome)) == w3
  {
  }

  lemma LastPasses(cfg: Config, w: World, w3: World, worker: string, id: nat, now: int, outcome: Outcome)
    requires id in w.table.rows && w.table.rows[id].lane.stream == TaskLabelSync
    requires var claimed := w.table.rows[id].(claim := Some(Claim(worker, now)));
             var remote := Touched(w.remote, claimed, outcome);
             w3 == World(WithRow(w.table, id, claimed), w.events, w3.workers, remote, w.lanes)
    requires w3.workers == w.workers[worker := if outcome == Success then Delivered(id, now) else Faulted(id, now)]
    ensures Apply(cfg, w3, Ending(worker, outcome)) == AfterRound(cfg, w, worker, now, id, outcome)
  {
    var w4 := AfterRound(cfg, w, worker, now, id, outcome);
    assert w3.workers[worker := Idle] == w4.workers;
    if outcome == Success {
      assert DoConfirm(w3, worker).table.rows == w4.table.rows;
    } else {
      assert DoReschedule(cfg, w3, worker).table.rows == w4.table.rows;
    }
  }

  // An older row that wants the critical label, whose send fails, and a newer one that does not.
  function Opening(first: Outcome): seq<Step> {
    [Enqueue(LabelRowDraft(1, {CriticalLabel})),
        Enqueue(LabelRowDraft(2, {}))] + (Round("w", 0, first) + Round("w", 1, Success))
  }

  // The two rows before any send, after the older one failed, and after the newer one was sent.
  function Fresh(): Table {
    Table(map[1 := FreshRow(LabelRowDraft(1, {CriticalLabel})), 2 := FreshRow(LabelRowDraft(2, {}))], 3, map[])
  }

  function OlderFailed(): Table {
    WithRow(Fresh(), 1, Fresh().rows[1].(attempts := 1, due := 60))
  }

  function NewerSent(): Table {
    WithRow(OlderFailed(), 2, Fresh().rows[2].(claim := Some(Claim("w", 1)), sent := Some(1)))
  }

  lemma BothEnqueued()
    ensures Run(CFG, Start(), [Enqueue(LabelRowDraft(1, {CriticalLabel})), Enqueue(LabelRowDraft(2, {}))])
        == Start().(table := Fresh(), lanes := {LANE})
  {
    var d1, d2 := LabelRowDraft(1, {CriticalLabel}), LabelRowDraft(2, {});
    var two := [Enqueue(d1), Enqueue(d2)];
    var t1 := Table(map[1 := FreshRow(d1)], 2, map[]);
    assert Conflicting(EmptyTable(), d1) == {} && Conflicting(t1, d2) == {};
    RunStep(CFG, Start(), two);
    assert two[1..] == [Enqueue(d2)];
    var w1 := Start().(table := t1, lanes := {LANE});
    assert Apply(CFG, Start(), two[0]).table.rows == t1.rows;
    assert 1 in t1.rows && t1.rows[1].lane in LanesOf(t1);
    assert Start().lanes + LanesOf(t1) == {LANE} && {LANE} + LanesOf(Fresh()) == {LANE};
    RunStep(CFG, w1, [Enqueue(d2)]);
    assert Apply(CFG, w1, Enqueue(d2)).table.rows == Fresh().rows;
    assert [Enqueue(d2)][1..] == [];
  }

  lemma OlderFails(w: World, outcome: Outcome)
    requires w.table == Fresh() && PhaseOf(w, "w").Idle? && outcome != Success
    ensures var w' := Run(CFG, w, Round("w", 0, outcome));
            w'.table == OlderFailed() && PhaseOf(w', "w").Idle? && w'.remote.body == w.remote.body
  {
    assert Eligible(w.table, 1, 0);
    assert 1 in Candidates(w.table, 0);
    LabelRound(CFG, w, "w", 0, 1, outcome);
    assert Backoff(CFG, 1) == 60 by { assert Pow2(0) == 1; }
  }

  lemma NewerSucceeds(w: World)
    requires w.table == OlderFailed() && PhaseOf(w, "w").Idle?
    ensures var w' := Run(CFG, w, Round("w", 1, Success));
            w'.table == NewerSent() && PhaseOf(w', "w").Idle? && w'.remote.body == w.remote.body
  {
    assert Eligible(w.table, 2, 1) && !Eligible(w.table, 1, 1);
    assert Candidates(w.table, 1) == {2};
    LabelRound(CFG, w, "w", 1, 2, Success);
  }

  lemma Opened(first: Outcome)
    requires first != Success
    ensures var w := Run(CFG, Start(), Opening(first));
            w.table == NewerSent() && PhaseOf(w, "w").Idle? && w.remote.body == map[]
  {
    var two := [Enqueue(LabelRowDraft(1, {CriticalLabel})), Enqueue(LabelRowDraft(2, {}))];
    BothEnqueued();
    RunConcat(CFG, Start(), two, Round("w", 0, first) + Round("w", 1, Success));
    var w2 := Start().(table := Fresh(), lanes := {LANE});
    RunConcat(CFG, w2, Round("w", 0, first), Round("w", 1, Success));
    OlderFails(w2, first);
    NewerSucceeds(Run(CFG, w2, Round("w", 0, first)));
  }

  // The older row comes again, once it is due.
  lemma OlderAgain(first: Outcome, again: Outcome)
    requires first != Success
    ensures var w := Run(CFG, Start(), Opening(first));
            && w.table == NewerSent() && w.remote.body == map[]
            && Run(CFG, Start(), Opening(first) + Round("w", 60, again)) == AfterRound(CFG, w, "w", 60, 1, again)
  {
    Opened(first);
    var w := Run(CFG, Start(), Opening(first));
    RunConcat(CFG, Start(), Opening(first), Round("w", 60, again));
    assert Eligible(w.table, 1, 60) && !Eligible(w.table, 2, 60);
    assert Candidates(w.table, 60) == {1};
    LabelRound(CFG, w, "w", 60, 1, again);
  }

  lemma CriticalShown(w: World, again: Outcome)
    requires w.table == NewerSent() && again != FailedClean
    ensures ManagedAt(AfterRound(CFG, w, "w", 60, 1, again), LANE) == {"critical"}
  {
    SyncKeepsManualLabels(LabelsAt(w.remote, LANE), {CriticalLabel});
    var names := LabelNames({CriticalLabel});
    assert names == {"critical"} by { assert LabelName(CriticalLabel) in names; }
  }

  // After one failed send the older row is confirmed last: every row is sent, and the issue shows
  // the older labels.
  lemma FailedSendLeavesStaleLabels()
    ensures var w := Reached(CFG, Opening(FailedClean) + Round("w", 60, Success));
            && AllSent(w.table, LANE)
            && w.table.rows.Keys == {1, 2} && w.table.rows[2].payload == Labels({})
            && ManagedAt(w, LANE) == {"critical"}
  {
    OlderAgain(FailedClean, Success);
    OlderSent(Run(CFG, Start(), Opening(FailedClean)));
  }

  lemma OlderSent(w: World)
    requires w.table == NewerSent()
    ensures var w' := AfterRound(CFG, w, "w", 60, 1, Success);
            && AllSent(w'.table, LANE)
            && w'.table.rows.Keys == {1, 2} && w'.table.rows[2].payload == Labels({})
            && ManagedAt(w', LANE) == {"critical"}
  {
    CriticalShown(w, Success);
  }

  const REBUILD := Request(View("t", Some("7"), Planning, 2, false, None), true, 200, "audit", "http://relay")

  // A send that failed after its effect, and then a forced rebuild: it deletes the unsent row whose
  // labels the issue shows, and enqueues nothing, because the current row was sent before. The only
  // label row left is sent and desires no label, and the issue keeps the critical label.
  lemma ForcedRebuildLosesLabels()
    ensures var before := Reached(CFG, Opening(FailedClean) + Round("w", 60, FailedAfterEffect));
            && Enabled(CFG, before, RebuildTask(REBUILD)) && !StaysShown(before, REBUILD, LANE)
            && var w := Apply(CFG, before, RebuildTask(REBUILD));
            && AllSent(w.table, LANE)
            && (forall id: nat :: LabelRow(w.table, LANE, id) <==> id == 2) && Desired(w.table, 2) == {}
            && ManagedAt(w, LANE) == {"critical"}
  {
    var steps := Opening(FailedClean) + Round("w", 60, FailedAfterEffect);
    OlderAgain(FailedClean, FailedAfterEffect);
    OlderUnsent(Run(CFG, Start(), Opening(FailedClean)));
    UnforcedLabels(FailedClean, FailedAfterEffect);
    CurrentRowSent(Reached(CFG, steps));
  }

  lemma RoundUnforced(now: int, outcome: Outcome, s: Step)
    requires s in Round("w", now, outcome)
    ensures !s.RebuildTask?
  {
  }

  lemma UnforcedLabels(first: Outcome, again: Outcome)
    ensures LabelInv(Reached(CFG, Opening(first) + Round("w", 60, again)))
  {
    var steps := Opening(first) + Round("w", 60, again);
    forall s | s in steps ensures !s.RebuildTask? {
      if s in Round("w", 60, again) {
        RoundUnforced(60, again, s);
      } else if s in Round("w", 0, first) {
        RoundUnforced(0, first, s);
      } else if s in Round("w", 1, Success) {
        RoundUnforced(1, Success, s);
      }
    }
    UnforcedRunIsCalm(CFG, Start(), steps);
    StartInv();
    StartLabels();
    RunKeepsLabels(CFG, Start(), steps);
  }

  // The newer row is sent, the older one is not, and the issue shows the older one's labels.
  predicate Crossed(w: World) {
    && w.table.rows.Keys == {1, 2} && w.table.nextId == 3 && w.table.rows[2] == NewerSent().rows[2]
    && w.table.rows[1].lane == LANE && w.table.rows[1].sent.None? && w.table.rows[1].claim.None?
    && ManagedAt(w, LANE) == {"critical"}
    && w.table.cursors == map[] && w.remote.body == map[]
  }

  lemma OlderUnsent(w: World)
    requires w.table == NewerSent() && w.remote.body == map[]
    ensures Crossed(AfterRound(CFG, w, "w", 60, 1, FailedAfterEffect))
  {
    CriticalShown(w, FailedAfterEffect);
  }

  lemma CurrentRowSent(before: World)
    requires Crossed(before) && LabelInv(before)
    ensures Enabled(CFG, before, RebuildTask(REBUILD)) && !StaysShown(before, REBUILD, LANE)
    ensures var w := Apply(CFG, before, RebuildTask(REBUILD));
            && AllSent(w.table, LANE)
            && (forall id: nat :: LabelRow(w.table, LANE, id) <==> id == 2) && Desired(w.table, 2) == {}
            && ManagedAt(w, LANE) == {"critical"}
  {
    NotSettled(before);
    CurrentKept(before.table);
    forall lane: Lane ensures LaneReady(before, REBUILD, lane) {}
    assert RebuildReady(before, REBUILD);
    var w := Apply(CFG, before, RebuildTask(REBUILD));
    assert w == Grown(before, Rebuilt(before.table, REBUILD));
  }

  lemma CurrentKept(t: Table)
    requires t.rows.Keys == {1, 2} && t.nextId == 3 && t.rows[2] == NewerSent().rows[2]
    requires t.rows[1].lane == LANE && t.rows[1].sent.None?
    ensures Rebuilt(t, REBUILD).rows == map[2 := t.rows[2], 3 := FreshRow(SnapshotDraft(REBUILD))]
    ensures 2 in Conflicting(Base(t, REBUILD), LabelDraft(REBUILD))
  {
    var b := Base(t, REBUILD);
    assert b.rows == map[2 := t.rows[2]];
    assert DesiredLabels(Planning, false) == {};
    assert 2 in Conflicting(b, LabelDraft(REBUILD));
    assert Conflicting(b, SnapshotDraft(REBUILD)) == {};
    var mid := Insert(b, SnapshotDraft(REBUILD));
    assert mid.rows == map[2 := t.rows[2], 3 := FreshRow(SnapshotDraft(REBUILD))];
    assert 2 in Conflicting(mid, LabelDraft(REBUILD));
  }

  lemma NotSettled(w: World)
    requires Crossed(w) && LabelInv(w)
    ensures !Settled(w, LANE)
  {
    LastIs(w.table, w.events, LANE);
    var last := LastSent(w.table, w.events, LANE);
    if last.Some? {
      var k :| 0 <= k < |w.events| && w.events[k] == ProjectionSent(last.value);
      assert EventOk(w, k);
    }
    assert LastDesired(w, LANE) == {} && LabelNames({}) == {};
    assert "critical" in ManagedAt(w, LANE);
  }
}
