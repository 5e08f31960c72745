// What every run of the delivery protocol guarantees.
module DeliveryTheorems {
  import opened Common
  import opened Idempotency
  import opened Outbox
  import opened Rebuild
  import opened Delivery

  ghost function Reached(cfg: Config, steps: seq<Step>): World {
    Run(cfg, Start(), steps)
  }

  lemma ReachedInv(cfg: Config, steps: seq<Step>)
    ensures Inv(Reached(cfg, steps))
  {
    StartInv();
    RunKeepsInv(cfg, Start(), steps);
  }

  predicate AllSent(t: Table, lane: Lane) {
    forall id :: id in t.rows && t.rows[id].lane == lane ==> t.rows[id].sent.Some?
  }

  predicate InLane(t: Table, lane: Lane, id: nat) {
    id in t.rows && t.rows[id].lane == lane
  }

  // ---- mirror convergence

  // In every reachable world the body of an issue that only one task mirrors to shows the row that
  // the cursor names, or an unsent row is above the cursor. Once all rows of the lane are sent, the body is the
  // payload of the cursor's row, and its revision, the cursor and the highest revision are the same.
  lemma MirrorConverges(cfg: Config, steps: seq<Step>, lane: Lane)
    requires lane.stream == TaskSnapshot && Alone(Reached(cfg, steps), lane)
    ensures var w := Reached(cfg, steps);
            && (Mirrored(w, lane) || exists id :: Outstanding(w.table, lane, id))
            && (RemoteRev(w, lane) != CursorRev(w.table, lane) ==> exists id :: Outstanding(w.table, lane, id))
            && (AllSent(w.table, lane) ==>
                  && Mirrored(w, lane)
                  && RemoteRev(w, lane) == CursorRev(w.table, lane)
                  && (forall id :: InLane(w.table, lane, id) ==> w.table.rows[id].rev <= RemoteRev(w, lane))
                  && (RemoteRev(w, lane) >= 0 ==>
                        exists id :: InLane(w.table, lane, id) && w.table.rows[id].rev == RemoteRev(w, lane)))
  {
    ReachedInv(cfg, steps);
    var w := Reached(cfg, steps);
    assert LaneOk(w, lane);
    if Mirrored(w, lane) { MirroredRevs(w, lane); }
    assert forall id :: id in w.table.rows ==> SentOk(w, id);
    if AllSent(w.table, lane) && lane in w.table.cursors {
      assert InLane(w.table, lane, w.table.cursors[lane].outboxId);
    }
  }

  lemma MirroredRevs(w: World, lane: Lane)
    requires Inv(w) && lane.stream == TaskSnapshot && Mirrored(w, lane)
    ensures RemoteRev(w, lane) == CursorRev(w.table, lane)
  {
    assert LaneOk(w, lane);
    if lane in w.table.cursors { assert RowOk(w.table, w.table.cursors[lane].outboxId); }
  }

  // Two tasks that mirror to one issue cannot both be shown, unless their snapshots are the same.
  lemma SharedIssue(w: World, a: Lane, b: Lane)
    requires a.target == b.target && a in w.table.cursors && b in w.table.cursors
    requires var i, j := w.table.cursors[a].outboxId, w.table.cursors[b].outboxId;
             i in w.table.rows && j in w.table.rows && w.table.rows[i].payload != w.table.rows[j].payload
    ensures !(Mirrored(w, a) && Mirrored(w, b))
  {
  }

  // The cursor never falls, and each confirmed send of a snapshot raises it to the sent revision.
  lemma CursorRises(cfg: Config, steps: seq<Step>, s: Step, lane: Lane)
    ensures var w := Reached(cfg, steps);
            && CursorRev(w.table, lane) <= CursorRev(Apply(cfg, w, s).table, lane)
            && (s.Confirm? && Enabled(cfg, w, s) && lane.stream == TaskSnapshot ==>
                  var row := w.table.rows[PhaseOf(w, s.worker).id];
                  row.lane == lane ==> CursorRev(w.table, lane) < CursorRev(Apply(cfg, w, s).table, lane) == row.rev)
  {
    ReachedInv(cfg, steps);
    var w := Reached(cfg, steps);
    if s.Confirm? && Enabled(cfg, w, s) { assert WorkerOk(w, s.worker); }
  }

  // ---- exactly-once comments

  predicate SentComment(t: Table, id: nat) {
    id in t.rows && t.rows[id].lane.stream == TaskComment && t.rows[id].sent.Some?
  }

  // No comment is ever posted twice, and a comment row that is marked sent has been posted.
  lemma CommentsExactlyOnce(cfg: Config, steps: seq<Step>)
    ensures var w := Reached(cfg, steps);
            && (forall m :: w.remote.comments[m] <= 1)
            && (forall id :: SentComment(w.table, id) ==> w.remote.comments[MarkerOf(w.table.rows[id])] == 1)
  {
    ReachedInv(cfg, steps);
    var w := Reached(cfg, steps);
    forall m ensures w.remote.comments[m] <= 1 { assert CountOk(w, m); }
    assert forall id :: id in w.table.rows ==> SentOk(w, id);
  }

  // ---- lane exclusion

  lemma OneInFlightPerLane(cfg: Config, steps: seq<Step>, i: nat, j: nat)
    ensures var t := Reached(cfg, steps).table;
            LaneRivals(t, i, j) ==> i == j
  {
    ReachedInv(cfg, steps);
    assert LaneRivals(Reached(cfg, steps).table, i, j) ==> i == j;
  }

  // An older unsent row of the same lane.
  predicate Earlier(t: Table, i: nat, id: nat) {
    i < id && i in t.rows && id in t.rows && t.rows[i].lane == t.rows[id].lane && t.rows[i].sent.None?
  }

  // A claim takes an older row of the lane later exactly when such a row is not due yet.
  lemma ClaimOvertakes(t: Table, now: int, id: nat)
    requires Candidates(t, now) != {} && id == Least(Candidates(t, now))
    ensures (exists i :: Earlier(t, i, id))
       <==> (exists i :: Earlier(t, i, id) && t.rows[i].due > now)
  {
    assert id in Candidates(t, now);
    if i: nat :| Earlier(t, i, id) {
      assert i !in Candidates(t, now);
      assert !Eligible(t, i, now);
      assert t.rows[i].claim.None?;
      assert t.rows[i].due > now;
    }
  }

  // ---- first in, first out

  // A step of a run in which due times rise along each lane and no send fails.
  ghost predicate Smooth(w: World, s: Step) {
    match s
    case Enqueue(d) => DueBy(w.table, d.lane, d.due)
    case RebuildTask(q) =>
      !q.force && DueBy(w.table, SnapshotDraft(q).lane, q.now) && DueBy(w.table, LabelDraft(q).lane, q.now)
    case Lookup(_, ok) => ok
    case Send(_, outcome) => outcome == Success
    case _ => true
  }

  ghost predicate DueBy(t: Table, lane: Lane, due: int) {
    forall id :: id in t.rows && t.rows[id].lane == lane ==> t.rows[id].due <= due
  }

  ghost predicate SmoothRun(cfg: Config, w: World, steps: seq<Step>)
    decreases |steps|
  {
    steps == [] || (Smooth(w, steps[0]) && SmoothRun(cfg, Apply(cfg, w, steps[0]), steps[1..]))
  }

  lemma {:induction false} SmoothConcat(cfg: Config, w: World, a: seq<Step>, b: seq<Step>)
    requires SmoothRun(cfg, w, a) && SmoothRun(cfg, Run(cfg, w, a), b)
    ensures SmoothRun(cfg, w, a + b)
    decreases |a|
  {
    if a == [] {
      assert a + b == b;
    } else {
      assert (a + b)[0] == a[0] && (a + b)[1..] == a[1..] + b;
      SmoothConcat(cfg, Apply(cfg, w, a[0]), a[1..], b);
    }
  }

  predicate Ahead(t: Table, i: nat, j: nat) {
    i < j && i in t.rows && j in t.rows && t.rows[i].lane == t.rows[j].lane
  }

  // An older row of a lane is due no later, and is sent before a newer one is taken up.
  predicate InOrder(t: Table, i: nat, j: nat) {
    Ahead(t, i, j) ==>
      t.rows[i].due <= t.rows[j].due && (t.rows[j].sent.Some? || t.rows[j].claim.Some? ==> t.rows[i].sent.Some?)
  }

  ghost predicate Fifo(w: World) {
    && (forall i, j :: InOrder(w.table, i, j))
    && (forall v :: !PhaseOf(w, v).Faulted?)
  }

  lemma InsertKeepsFifo(t: Table, d: Draft)
    requires TableOk(t) && DueBy(t, d.lane, d.due) && forall i, j :: InOrder(t, i, j)
    ensures forall i, j :: InOrder(Insert(t, d), i, j)
  {
    forall i, j ensures InOrder(Insert(t, d), i, j) {
      assert InOrder(t, i, j) && RowOk(t, i) && RowOk(t, j);
    }
  }

  lemma StepKeepsFifo(cfg: Config, w: World, s: Step)
    requires Inv(w) && Fifo(w) && Smooth(w, s)
    ensures Fifo(Apply(cfg, w, s))
  {
    if Enabled(cfg, w, s) {
      var w' := Apply(cfg, w, s);
      if s.Enqueue? {
        InsertKeepsFifo(w.table, s.draft);
      } else if s.RebuildTask? {
        var q := s.request;
        InsertKeepsFifo(w.table, SnapshotDraft(q));
        InsertKeepsTableOk(w.table, SnapshotDraft(q));
        InsertKeepsFifo(Insert(w.table, SnapshotDraft(q)), LabelDraft(q));
      } else {
        forall i, j ensures InOrder(w'.table, i, j) {
          assert InOrder(w.table, i, j);
          if s.ClaimRow? { ClaimInOrder(w, s.now, i); }
          if s.Check? || s.Confirm? { assert WorkerOk(w, s.worker); }
        }
      }
      forall v ensures !PhaseOf(w', v).Faulted? { assert !PhaseOf(w, v).Faulted?; }
    }
  }

  // In a smooth world a claim takes the oldest unsent row of its lane.
  lemma ClaimInOrder(w: World, now: int, i: nat)
    requires Inv(w) && Fifo(w) && Candidates(w.table, now) != {}
    ensures Ahead(w.table, i, Least(Candidates(w.table, now))) ==> w.table.rows[i].sent.Some?
  {
    var id := Least(Candidates(w.table, now));
    assert id in Candidates(w.table, now);
    assert InOrder(w.table, i, id);
    assert i !in Candidates(w.table, now) || id <= i;
    assert !(i in w.table.rows && w.table.rows[i].lane == w.table.rows[id].lane && w.table.rows[i].InFlight());
  }

  lemma {:induction false} SmoothRunIsFifo(cfg: Config, w: World, steps: seq<Step>)
    requires Inv(w) && Fifo(w) && SmoothRun(cfg, w, steps)
    ensures Fifo(Run(cfg, w, steps))
    decreases |steps|
  {
    if steps != [] {
      StepKeepsInv(cfg, w, steps[0]);
      StepKeepsFifo(cfg, w, steps[0]);
      SmoothRunIsFifo(cfg, Apply(cfg, w, steps[0]), steps[1..]);
    }
  }

  // With rising due times and no failed send, crashes and reclaims included, a row is confirmed
  // only after every older row of its lane.
  lemma ConfirmedInOrder(cfg: Config, steps: seq<Step>, i: nat, j: nat)
    requires SmoothRun(cfg, Start(), steps)
    ensures var t := Reached(cfg, steps).table;
            Ahead(t, i, j) && t.rows[j].sent.Some? ==> t.rows[i].sent.Some?
  {
    StartInv();
    SmoothRunIsFifo(cfg, Start(), steps);
    assert InOrder(Reached(cfg, steps).table, i, j);
  }
}
