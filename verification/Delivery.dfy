/**
 The delivery protocol (projection/worker.py, projection/forgejo_sink.py).

 Any number of workers claim, send, confirm and reschedule outbox rows; each transition below is
 one database transaction or one remote call of one worker, so a list of steps is an interleaving,
 and Crash may fall between any two of them. A remote call can change the mirror and still fail.
 A step that is not enabled leaves the world as it is, so every list of steps is a run.
 */
module Delivery {
  import opened Common
  import opened Idempotency
  import opened Outbox
  import opened Rebuild

  // The settings the worker reads (config.py), in seconds.
  datatype Config = Config(initial: nat, cap: nat, maxAttempts: int, degradeAfter: int, staleAfter: int)

  datatype Marker = Marker(target: string, key: Key)

  // The mirror, which knows issues and not tasks: by target, what the issue's body shows and which
  // labels it carries; and the markers of all comments.
  datatype Remote =
    Remote(body: map<string, SnapshotPayload>, comments: multiset<Marker>, labels: map<string, set<string>>)

  // Where a worker is inside step(); `id` is the row it claimed and `now` its clock reading.
  datatype Phase =
    | Idle
    | Claimed(id: nat, now: int)
    | Cleared(id: nat, now: int)
    | Looked(id: nat, now: int, found: bool)
    | Delivered(id: nat, now: int)
    | Faulted(id: nat, now: int)

  // lanes is the history of the lanes that ever had a row.
  datatype World =
    World(table: Table, events: seq<SysEvent>, workers: map<string, Phase>, remote: Remote, lanes: set<Lane>)

  datatype Outcome = Success | FailedClean | FailedAfterEffect

  datatype Step =
    | Enqueue(draft: Draft)
    | RebuildTask(request: Request)
    | ReclaimRows(now: int)
    | ClaimRow(worker: string, now: int)
    | Check(worker: string)
    | Lookup(worker: string, ok: bool)
    | Send(worker: string, outcome: Outcome)
    | Confirm(worker: string)
    | Reschedule(worker: string)
    | Crash(worker: string)

  function Start(): World {
    World(EmptyTable(), [], map[], Remote(map[], multiset{}, map[]), {})
  }

  function PhaseOf(w: World, worker: string): Phase {
    if worker in w.workers then w.workers[worker] else Idle
  }

  predicate Holds(w: World, worker: string, id: nat) {
    var p := PhaseOf(w, worker);
    !p.Idle? && p.id == id
  }

  // ---- pure parts of the worker and the sink

  function Min(a: int, b: int): int { if a < b then a else b }

  // _backoff_seconds
  function Backoff(cfg: Config, attempt: int): (delay: nat) {
    Min(cfg.initial * Pow2(if attempt - 1 > 0 then attempt - 1 else 0), cfg.cap)
  }

  // _should_degrade
  predicate ShouldDegrade(cfg: Config, row: Row, attempt: nat, now: int) {
    attempt >= cfg.maxAttempts || now - row.due >= cfg.degradeAfter
  }

  // _is_superseded
  predicate Superseded(t: Table, row: Row) {
    row.lane in t.cursors && t.cursors[row.lane].rev >= row.rev
  }

  function LabelName(l: Label): string {
    match l
    case CriticalLabel => "critical"
    case HumanReviewLabel => "human_review_required"
    case CancelledLabel => "cancelled"
  }

  function LabelNames(ls: set<Label>): set<string> {
    set l | l in ls :: LabelName(l)
  }

  const MANAGED_LABELS: set<string> := {"critical", "human_review_required", "cancelled"}

  // _diff_labels
  function DiffLabels(current: set<string>, managed: set<string>, desired: set<string>): set<string> {
    (current - managed) + desired
  }

  function LabelsAt(r: Remote, lane: Lane): set<string> {
    if lane.target in r.labels then r.labels[lane.target] else {}
  }

  function MarkerOf(row: Row): Marker { Marker(row.lane.target, row.key) }

  // What a send of the row does to the mirror.
  function Effect(r: Remote, row: Row): Remote {
    match row.lane.stream
    case TaskSnapshot => if row.payload.Snapshot? then r.(body := r.body[row.lane.target := row.payload.body]) else r
    case TaskComment => r.(comments := r.comments + multiset{MarkerOf(row)})
    case TaskLabelSync =>
      if row.payload.Labels? then
        var after := DiffLabels(LabelsAt(r, row.lane), MANAGED_LABELS, LabelNames(row.payload.desired));
        r.(labels := r.labels[row.lane.target := after])
      else r
    case DiscordAlert => r
  }

  // ---- what an issue shows

  function RemoteRev(w: World, lane: Lane): int {
    if lane.target in w.remote.body then w.remote.body[lane.target].rev else -1
  }

  predicate ShowsRow(w: World, lane: Lane, id: nat) {
    lane.target in w.remote.body && id in w.table.rows
        && w.table.rows[id].payload == Snapshot(w.remote.body[lane.target])
  }

  // The issue body shows the row that the cursor names, or there is neither.
  predicate Mirrored(w: World, lane: Lane) {
    if lane in w.table.cursors then ShowsRow(w, lane, w.table.cursors[lane].outboxId)
    else lane.target !in w.remote.body
  }

  // No other task has ever had a row of this stream for the issue.
  predicate Alone(w: World, lane: Lane) {
    forall l :: l in w.lanes && l.stream == lane.stream && l.target == lane.target ==> l == lane
  }

  function LanesOf(t: Table): set<Lane> {
    set id | id in t.rows :: t.rows[id].lane
  }

  // The table after an insert or a rebuild.
  function Grown(w: World, t: Table): World {
    w.(table := t, lanes := w.lanes + LanesOf(t))
  }

  // ---- steps

  // A forced rebuild leaves a snapshot lane of its task converging: the issue shows the cursor's
  // row, or the rebuild enqueues a snapshot above the cursor.
  predicate LaneReady(w: World, q: Request, lane: Lane) {
    Mirrored(w, lane) || (lane == q.view.SnapshotLane() && q.view.rev > CursorRev(w.table, lane))
  }

  predicate TaskIdle(t: Table, taskId: string) {
    forall id :: id in t.rows && t.rows[id].lane.taskId == taskId ==> !t.rows[id].InFlight()
  }

  // A forced rebuild is run while no row of the task is being sent and its snapshot lanes are ready.
  ghost predicate RebuildReady(w: World, q: Request) {
    q.force ==>
      && TaskIdle(w.table, q.view.taskId)
      && forall lane: Lane :: lane.stream == TaskSnapshot && lane.taskId == q.view.taskId && Alone(w, lane) ==>
           LaneReady(w, q, lane)
  }

  ghost predicate Enabled(cfg: Config, w: World, s: Step) {
    match s
    case Enqueue(d) => DraftFits(d)
    case RebuildTask(q) => RebuildReady(w, q)
    case ReclaimRows(now) => forall id, worker :: id in StaleIds(w.table, now - cfg.staleAfter) ==>
      !Holds(w, worker, id)
    case ClaimRow(worker, now) => PhaseOf(w, worker).Idle? && Candidates(w.table, now) != {}
    case Check(worker) => PhaseOf(w, worker).Claimed? && PhaseOf(w, worker).id in w.table.rows
    case Lookup(worker, _) =>
      PhaseOf(w, worker).Cleared? && PhaseOf(w, worker).id in w.table.rows
          && w.table.rows[PhaseOf(w, worker).id].lane.stream == TaskComment
    case Send(worker, _) =>
      var p := PhaseOf(w, worker);
      !p.Idle? && p.id in w.table.rows
          && (if w.table.rows[p.id].lane.stream == TaskComment then p.Looked? else p.Cleared?)
    case Confirm(worker) => PhaseOf(w, worker).Delivered? && PhaseOf(w, worker).id in w.table.rows
    case Reschedule(worker) => PhaseOf(w, worker).Faulted? && PhaseOf(w, worker).id in w.table.rows
    case Crash(_) => true
  }

  function Move(w: World, worker: string, p: Phase): World {
    w.(workers := w.workers[worker := p])
  }

  function DoReclaim(cfg: Config, w: World, now: int): World {
    var n := |StaleIds(w.table, now - cfg.staleAfter)|;
    w.(table := ReclaimStale(w.table, now - cfg.staleAfter),
       events := if n > 0 then w.events + [StaleClaimReclaimed(n)] else w.events)
  }

  ghost function DoClaim(w: World, worker: string, now: int): World
    requires Candidates(w.table, now) != {}
  {
    Move(w.(table := ClaimNext(w.table, worker, now)), worker, Claimed(Least(Candidates(w.table, now)), now))
  }

  function DoCheck(w: World, worker: string): World
    requires PhaseOf(w, worker).Claimed? && PhaseOf(w, worker).id in w.table.rows
  {
    var Claimed(id, now) := PhaseOf(w, worker);
    var row := w.table.rows[id];
    if row.lane.stream == TaskSnapshot && Superseded(w.table, row) then
      Move(w.(table := MarkSent(w.table, id, now)), worker, Idle)
    else Move(w, worker, Cleared(id, now))
  }

  function DoLookup(w: World, worker: string, ok: bool): World
    requires PhaseOf(w, worker).Cleared? && PhaseOf(w, worker).id in w.table.rows
  {
    var Cleared(id, now) := PhaseOf(w, worker);
    if ok then Move(w, worker, Looked(id, now, MarkerOf(w.table.rows[id]) in w.remote.comments))
    else Move(w, worker, Faulted(id, now))
  }

  function DoSend(w: World, worker: string, outcome: Outcome): World
    requires var p := PhaseOf(w, worker); (p.Looked? || p.Cleared?) && p.id in w.table.rows
  {
    var p := PhaseOf(w, worker);
    var after := w.(remote := Effect(w.remote, w.table.rows[p.id]));
    if p.Looked? && p.found then Move(w, worker, Delivered(p.id, p.now))
    else match outcome
      case Success => Move(after, worker, Delivered(p.id, p.now))
      case FailedClean => Move(w, worker, Faulted(p.id, p.now))
      case FailedAfterEffect => Move(after, worker, Faulted(p.id, p.now))
  }

  function DoConfirm(w: World, worker: string): World
    requires PhaseOf(w, worker).Delivered? && PhaseOf(w, worker).id in w.table.rows
  {
    var Delivered(id, now) := PhaseOf(w, worker);
    var row := w.table.rows[id];
    var marked := MarkSent(w.table, id, now);
    var table := if row.lane.stream == TaskSnapshot then UpsertCursor(marked, row.lane, row.rev, id) else marked;
    Move(w.(table := table, events := w.events + [ProjectionSent(id)]), worker, Idle)
  }

  function DoReschedule(cfg: Config, w: World, worker: string): World
    requires PhaseOf(w, worker).Faulted? && PhaseOf(w, worker).id in w.table.rows
  {
    var Faulted(id, now) := PhaseOf(w, worker);
    var row := w.table.rows[id];
    var attempt := row.attempts + 1;
    var failed := [SendFailed(id, attempt)];
    Move(w.(table := RescheduleRow(w.table, id, now + Backoff(cfg, attempt), attempt),
            events := w.events + if ShouldDegrade(cfg, row, attempt, now) then failed + [InfraFatal(id, attempt)]
                else failed),
         worker, Idle)
  }

  ghost function Apply(cfg: Config, w: World, s: Step): World {
    if !Enabled(cfg, w, s) then w
    else match s
      case Enqueue(d) => Grown(w, Insert(w.table, d))
      case RebuildTask(q) => Grown(w, Rebuilt(w.table, q))
      case ReclaimRows(now) => DoReclaim(cfg, w, now)
      case ClaimRow(worker, now) => DoClaim(w, worker, now)
      case Check(worker) => DoCheck(w, worker)
      case Lookup(worker, ok) => DoLookup(w, worker, ok)
      case Send(worker, outcome) => DoSend(w, worker, outcome)
      case Confirm(worker) => DoConfirm(w, worker)
      case Reschedule(worker) => DoReschedule(cfg, w, worker)
      case Crash(worker) => Move(w, worker, Idle)
  }

  ghost function Run(cfg: Config, w: World, steps: seq<Step>): World
    decreases |steps|
  {
    if steps == [] then w else Run(cfg, Apply(cfg, w, steps[0]), steps[1..])
  }

  lemma RunStep(cfg: Config, w: World, s: seq<Step>)
    requires s != []
    ensures Run(cfg, w, s) == Run(cfg, Apply(cfg, w, s[0]), s[1..])
  {
  }

  lemma {:induction false} RunConcat(cfg: Config, w: World, a: seq<Step>, b: seq<Step>)
    ensures Run(cfg, w, a + b) == Run(cfg, Run(cfg, w, a), b)
    decreases |a|
  {
    if a == [] {
      assert a + b == b;
    } else {
      assert (a + b)[0] == a[0] && (a + b)[1..] == a[1..] + b;
      RunConcat(cfg, Apply(cfg, w, a[0]), a[1..], b);
    }
  }

  // ---- invariant

  // An unsent row of the lane above its cursor.
  predicate Outstanding(t: Table, lane: Lane, id: nat) {
    id in t.rows && t.rows[id].lane == lane && t.rows[id].sent.None? && t.rows[id].rev > CursorRev(t, lane)
  }

  // The cursor names a sent row of its lane that has the cursor's revision.
  predicate CursorRowOk(t: Table, lane: Lane) {
    lane in t.cursors ==>
      var id := t.cursors[lane].outboxId;
      id in t.rows && t.rows[id].lane == lane && t.rows[id].sent.Some? && t.rows[id].rev == t.cursors[lane].rev
  }

  ghost predicate Converges(w: World, lane: Lane) {
    Mirrored(w, lane) || exists id :: Outstanding(w.table, lane, id)
  }

  // Only snapshot lanes have a cursor; on an issue of one task, body and cursor agree or a row is outstanding.
  ghost predicate LaneOk(w: World, lane: Lane) {
    && CursorRowOk(w.table, lane)
    && (if lane.stream == TaskSnapshot then Alone(w, lane) ==> Converges(w, lane) else lane !in w.table.cursors)
  }

  predicate RowLaneOk(w: World, id: nat) {
    id in w.table.rows ==> w.table.rows[id].lane in w.lanes
  }

  predicate SentOk(w: World, id: nat) {
    id in w.table.rows && w.table.rows[id].sent.Some? ==>
      var row := w.table.rows[id];
      && (row.lane.stream == TaskSnapshot ==> row.rev <= CursorRev(w.table, row.lane))
      && (row.lane.stream == TaskComment ==> w.remote.comments[MarkerOf(row)] == 1)
  }

  predicate CountOk(w: World, m: Marker) {
    w.remote.comments[m] <= 1
  }

  // A busy worker's row is unsent and carries that worker's claim; what the worker has learnt
  // about the mirror still holds.
  predicate WorkerOk(w: World, worker: string) {
    var p := PhaseOf(w, worker);
    !p.Idle? ==>
      && p.id in w.table.rows
      && var row := w.table.rows[p.id];
      && row.InFlight() && row.claim.value.worker == worker
      && (row.lane.stream == TaskSnapshot ==>
            && (!p.Claimed? ==> row.rev > CursorRev(w.table, row.lane))
            && (p.Delivered? && Alone(w, row.lane) ==> ShowsRow(w, row.lane, p.id)))
      && (row.lane.stream == TaskComment ==>
            && (p.Looked? ==> w.remote.comments[MarkerOf(row)] == if p.found then 1 else 0)
            && (p.Delivered? ==> w.remote.comments[MarkerOf(row)] == 1))
      && (p.Looked? ==> row.lane.stream == TaskComment)
  }

  ghost predicate Inv(w: World) {
    && TableOk(w.table)
    && (forall id :: RowLaneOk(w, id))
    && (forall lane :: LaneOk(w, lane))
    && (forall id :: SentOk(w, id))
    && (forall m :: CountOk(w, m))
    && (forall worker :: WorkerOk(w, worker))
  }

  lemma StartInv()
    ensures Inv(Start())
  {
  }

  // ---- preservation, one step at a time

  // Two busy workers are on different rows of different lanes.
  lemma Apart(w: World, v: string, worker: string)
    requires Inv(w) && v != worker && !PhaseOf(w, v).Idle? && !PhaseOf(w, worker).Idle?
    ensures var i, j := PhaseOf(w, v).id, PhaseOf(w, worker).id;
            i in w.table.rows && j in w.table.rows && i != j && w.table.rows[i].lane != w.table.rows[j].lane
  {
    assert WorkerOk(w, v) && WorkerOk(w, worker);
    var i, j := PhaseOf(w, v).id, PhaseOf(w, worker).id;
    assert LaneRivals(w.table, i, j) ==> i == j;
  }

  lemma ConvergesAgain(w: World, w': World, lane: Lane, id: nat)
    requires Outstanding(w'.table, lane, id)
    ensures Converges(w', lane)
  {
  }

  lemma InsertKeepsInv(w: World, d: Draft)
    requires Inv(w) && DraftFits(d)
    ensures Inv(Grown(w, Insert(w.table, d)))
  {
    InsertKeepsTableOk(w.table, d);
    GrownRows(w, Insert(w.table, d));
  }

  // New unsent, unclaimed rows disturb nobody.
  lemma GrownRows(w: World, t': Table)
    requires Inv(w) && TableOk(t') && t'.cursors == w.table.cursors
    requires forall id :: id in w.table.rows ==> id in t'.rows && t'.rows[id] == w.table.rows[id]
    requires forall id :: id in t'.rows && id !in w.table.rows ==> t'.rows[id].sent.None?
    ensures Inv(Grown(w, t'))
  {
    var w' := Grown(w, t');
    forall id ensures RowLaneOk(w', id) { assert RowLaneOk(w, id); }
    forall lane ensures LaneOk(w', lane) {
      assert LaneOk(w, lane);
      if id :| Outstanding(w.table, lane, id) { ConvergesAgain(w, w', lane, id); }
    }
    forall id ensures SentOk(w', id) { assert SentOk(w, id); }
    forall m ensures CountOk(w', m) { assert CountOk(w, m); }
    forall worker ensures WorkerOk(w', worker) { assert WorkerOk(w, worker); }
  }

  lemma RebuildKeepsInv(w: World, q: Request)
    requires Inv(w) && RebuildReady(w, q)
    ensures Inv(Grown(w, Rebuilt(w.table, q)))
  {
    if !q.force {
      InsertKeepsTableOk(w.table, SnapshotDraft(q));
      InsertKeepsTableOk(Insert(w.table, SnapshotDraft(q)), LabelDraft(q));
      GrownRows(w, Rebuilt(w.table, q));
    } else {
      ForcedKeepsInv(w, q);
    }
  }

  lemma ForcedKeepsInv(w: World, q: Request)
    requires Inv(w) && q.force && RebuildReady(w, q)
    ensures Inv(Grown(w, Rebuilt(w.table, q)))
  {
    var w' := Grown(w, Rebuilt(w.table, q));
    OneRowPerCurrentKey(w.table, q);
    forall id ensures RowLaneOk(w', id) {}
    forall lane ensures LaneOk(w', lane) { ForcedLane(w, q, lane); }
    forall id ensures SentOk(w', id) { ForcedRow(w, q, id); assert SentOk(w, id); }
    forall m ensures CountOk(w', m) { assert CountOk(w, m); }
    forall worker ensures WorkerOk(w', worker) { ForcedWorker(w, q, worker); }
  }

  lemma ForcedWorker(w: World, q: Request, worker: string)
    requires Inv(w) && q.force && RebuildReady(w, q)
    ensures WorkerOk(Grown(w, Rebuilt(w.table, q)), worker)
  {
    assert WorkerOk(w, worker);
    var p := PhaseOf(w, worker);
    if !p.Idle? { ForcedRow(w, q, p.id); }
  }

  predicate KeptByForce(t: Table, q: Request, id: nat) {
    id in t.rows && (t.rows[id].sent.Some? || t.rows[id].InFlight() || t.rows[id].lane.taskId != q.view.taskId)
  }

  // A forced rebuild keeps sent rows, claimed rows and other tasks' rows, and adds unsent unclaimed ones.
  lemma ForcedRow(w: World, q: Request, id: nat)
    requires Inv(w) && q.force && TaskIdle(w.table, q.view.taskId)
    ensures var t, t' := w.table, Rebuilt(w.table, q);
            && t'.cursors == t.cursors
            && (KeptByForce(t, q, id) ==> id in t'.rows && t'.rows[id] == t.rows[id])
            && (id in t'.rows && t'.rows[id].sent.Some? ==> id in t.rows && t.rows[id] == t'.rows[id])
  {
    var t, t' := w.table, Rebuilt(w.table, q);
    if KeptByForce(t, q, id) {
      RowSurvives(t, q, id);
    }
    if id in t'.rows && t'.rows[id].lane.taskId == q.view.taskId && t'.rows[id].sent.None? {
      ForcedLeavesOnlyCurrent(t, q, id);
    }
    BaseKeepsTableOk(t, q);
    assert RowOk(t, id);
  }

  // What a forced rebuild leaves of a snapshot lane of its task converges exactly when it is ready.
  lemma ForcedConverges(w: World, q: Request, lane: Lane)
    requires Inv(w) && q.force && TaskIdle(w.table, q.view.taskId)
    requires lane.stream == TaskSnapshot && lane.taskId == q.view.taskId
    ensures Converges(Grown(w, Rebuilt(w.table, q)), lane) <==> LaneReady(w, q, lane)
  {
    var t, t' := w.table, Rebuilt(w.table, q);
    var w' := Grown(w, t');
    assert LaneOk(w, lane);
    ForcedMirrored(w, q, lane);
    if id :| Outstanding(t', lane, id) {
      ForcedLeavesOnlyCurrent(t, q, id);
    }
    if lane == q.view.SnapshotLane() && q.view.rev > CursorRev(t, lane) {
      var cur := ForcedCurrent(w, q);
      ConvergesAgain(w, w', lane, cur);
    }
  }

  lemma ForcedMirrored(w: World, q: Request, lane: Lane)
    requires Inv(w) && q.force && TaskIdle(w.table, q.view.taskId)
    ensures Mirrored(Grown(w, Rebuilt(w.table, q)), lane) <==> Mirrored(w, lane)
  {
    assert LaneOk(w, lane);
    if lane in w.table.cursors { ForcedRow(w, q, w.table.cursors[lane].outboxId); }
  }

  // The row of the view's snapshot; above the cursor it is unsent.
  lemma ForcedCurrent(w: World, q: Request) returns (cur: nat)
    requires Inv(w) && q.force && TaskIdle(w.table, q.view.taskId)
    requires q.view.rev > CursorRev(w.table, q.view.SnapshotLane())
    ensures Outstanding(Rebuilt(w.table, q), q.view.SnapshotLane(), cur)
  {
    var t' := Rebuilt(w.table, q);
    OneRowPerCurrentKey(w.table, q);
    cur :| Conflicting(t', SnapshotDraft(q)) == {cur};
    assert cur in Conflicting(t', SnapshotDraft(q));
    assert RowOk(t', cur);
    ForcedRow(w, q, cur);
    assert SentOk(w, cur);
  }

  lemma ForcedLane(w: World, q: Request, lane: Lane)
    requires Inv(w) && q.force && RebuildReady(w, q)
    ensures LaneOk(Grown(w, Rebuilt(w.table, q)), lane)
  {
    var t' := Rebuilt(w.table, q);
    var w' := Grown(w, t');
    assert LaneOk(w, lane);
    if lane in w.table.cursors { ForcedRow(w, q, w.table.cursors[lane].outboxId); }
    ForcedRow(w, q, 0);
    if lane.stream == TaskSnapshot && Alone(w', lane) {
      assert Alone(w, lane);
      if lane.taskId == q.view.taskId {
        ForcedConverges(w, q, lane);
      } else {
        ForcedMirrored(w, q, lane);
        if id :| Outstanding(w.table, lane, id) {
          ForcedRow(w, q, id);
          ConvergesAgain(w, w', lane, id);
        }
      }
    }
  }

  // Rows whose claim, due time or attempt count changed, with the phases of the world w'.
  predicate Alike(a: Row, b: Row) {
    b.lane == a.lane && b.origin == a.origin && b.payload == a.payload && b.rev == a.rev && b.key == a.key
        && b.sent == a.sent
  }

  ghost predicate RowsAlike(t: Table, t': Table) {
    && t'.nextId == t.nextId && t'.cursors == t.cursors && t'.rows.Keys == t.rows.Keys
    && forall id :: id in t.rows ==> Alike(t.rows[id], t'.rows[id])
  }

  // Such changes keep all that does not speak of claims.
  lemma AlikeKeeps(w: World, w': World)
    requires Inv(w) && RowsAlike(w.table, w'.table) && w'.remote == w.remote && w'.lanes == w.lanes
    ensures forall id :: RowOk(w'.table, id) && RowLaneOk(w', id)
    ensures forall i, j :: KeyRivals(w'.table, i, j) ==> i == j
    ensures forall lane :: LaneOk(w', lane)
    ensures forall id :: SentOk(w', id)
    ensures forall m :: CountOk(w', m)
  {
    forall id ensures RowOk(w'.table, id) && RowLaneOk(w', id) && SentOk(w', id) {
      assert RowOk(w.table, id) && RowLaneOk(w, id) && SentOk(w, id);
    }
    forall i, j | KeyRivals(w'.table, i, j) ensures i == j { assert KeyRivals(w.table, i, j); }
    forall lane ensures LaneOk(w', lane) {
      assert LaneOk(w, lane);
      if id :| Outstanding(w.table, lane, id) { ConvergesAgain(w, w', lane, id); }
    }
    forall m ensures CountOk(w', m) { assert CountOk(w, m); }
  }

  lemma ReclaimKeepsInv(cfg: Config, w: World, now: int)
    requires Inv(w) && Enabled(cfg, w, ReclaimRows(now))
    ensures Inv(DoReclaim(cfg, w, now))
  {
    var w' := DoReclaim(cfg, w, now);
    AlikeKeeps(w, w');
    forall i, j | LaneRivals(w'.table, i, j) ensures i == j { assert LaneRivals(w.table, i, j); }
    forall worker ensures WorkerOk(w', worker) {
      assert WorkerOk(w, worker);
      var p := PhaseOf(w, worker);
      if !p.Idle? {
        assert Holds(w, worker, p.id);
        assert p.id !in StaleIds(w.table, now - cfg.staleAfter);
      }
    }
  }

  lemma ClaimKeepsInv(cfg: Config, w: World, worker: string, now: int)
    requires Inv(w) && Enabled(cfg, w, ClaimRow(worker, now))
    ensures Inv(DoClaim(w, worker, now))
  {
    var w' := DoClaim(w, worker, now);
    var id := Least(Candidates(w.table, now));
    assert id in Candidates(w.table, now);
    AlikeKeeps(w, w');
    forall i, j | LaneRivals(w'.table, i, j) ensures i == j {
      if i != id && j != id { assert LaneRivals(w.table, i, j); }
    }
    forall v ensures WorkerOk(w', v) { assert WorkerOk(w, v); }
  }

  lemma RescheduleKeepsInv(cfg: Config, w: World, worker: string)
    requires Inv(w) && Enabled(cfg, w, Reschedule(worker))
    ensures Inv(DoReschedule(cfg, w, worker))
  {
    var w' := DoReschedule(cfg, w, worker);
    AlikeKeeps(w, w');
    forall i, j | LaneRivals(w'.table, i, j) ensures i == j { assert LaneRivals(w.table, i, j); }
    forall v ensures WorkerOk(w', v) {
      assert WorkerOk(w, v);
      if v != worker && !PhaseOf(w, v).Idle? { Apart(w, v, worker); }
    }
  }

  // Changing only one worker's phase keeps everything the other workers rely on.
  lemma PhaseKeepsInv(w: World, worker: string, p: Phase)
    requires Inv(w) && WorkerOk(Move(w, worker, p), worker)
    ensures Inv(Move(w, worker, p))
  {
    var w' := Move(w, worker, p);
    AlikeKeeps(w, w');
    forall v ensures WorkerOk(w', v) { assert WorkerOk(w, v); }
  }

  // Marking a row sent: its lane's cursor already covers it, or is raised to it.
  lemma SentKeepsInv(w: World, w': World, worker: string)
    requires Inv(w) && !PhaseOf(w, worker).Idle?
    requires WorkerOk(w, worker)
    requires var p, row := PhaseOf(w, worker), w.table.rows[PhaseOf(w, worker).id];
             var marked := MarkSent(w.table, p.id, p.now);
             && w'.remote == w.remote && w'.lanes == w.lanes && w'.workers == w.workers[worker := Idle]
             && (if row.lane.stream != TaskSnapshot then w'.table == marked && p.Delivered?
                 else if Superseded(w.table, row) then w'.table == marked
                 else w'.table == UpsertCursor(marked, row.lane, row.rev, p.id) && p.Delivered?)
    ensures Inv(w')
  {
    var p := PhaseOf(w, worker);
    var row := w.table.rows[p.id];
    forall id ensures RowOk(w'.table, id) && RowLaneOk(w', id) { assert RowOk(w.table, id) && RowLaneOk(w, id); }
    forall i, j | KeyRivals(w'.table, i, j) ensures i == j { assert KeyRivals(w.table, i, j); }
    forall i, j | LaneRivals(w'.table, i, j) ensures i == j { assert LaneRivals(w.table, i, j); }
    forall lane ensures LaneOk(w', lane) { SentLane(w, w', worker, lane); }
    forall id ensures SentOk(w', id) { assert SentOk(w, id); }
    forall m ensures CountOk(w', m) { assert CountOk(w, m); }
    forall v ensures WorkerOk(w', v) {
      assert WorkerOk(w, v);
      if v != worker && !PhaseOf(w, v).Idle? { Apart(w, v, worker); }
    }
  }

  lemma SentLane(w: World, w': World, worker: string, lane: Lane)
    requires Inv(w) && !PhaseOf(w, worker).Idle?
    requires WorkerOk(w, worker)
    requires var p, row := PhaseOf(w, worker), w.table.rows[PhaseOf(w, worker).id];
             var marked := MarkSent(w.table, p.id, p.now);
             && w'.remote == w.remote && w'.lanes == w.lanes && w'.workers == w.workers[worker := Idle]
             && (if row.lane.stream != TaskSnapshot then w'.table == marked && p.Delivered?
                 else if Superseded(w.table, row) then w'.table == marked
                 else w'.table == UpsertCursor(marked, row.lane, row.rev, p.id) && p.Delivered?)
    ensures LaneOk(w', lane)
  {
    assert LaneOk(w, lane);
    var row := w.table.rows[PhaseOf(w, worker).id];
    if lane != row.lane || Superseded(w.table, row) {
      if id :| Outstanding(w.table, lane, id) { ConvergesAgain(w, w', lane, id); }
    }
  }

  lemma SendKeepsInv(cfg: Config, w: World, worker: string, outcome: Outcome)
    requires Inv(w) && Enabled(cfg, w, Send(worker, outcome))
    ensures Inv(DoSend(w, worker, outcome))
  {
    var p := PhaseOf(w, worker);
    assert WorkerOk(w, worker);
    if p.Looked? && p.found {
      PhaseKeepsInv(w, worker, Delivered(p.id, p.now));
    } else if outcome == FailedClean {
      PhaseKeepsInv(w, worker, Faulted(p.id, p.now));
    } else {
      EffectKeepsInv(w, worker, if outcome == Success then Delivered(p.id, p.now) else Faulted(p.id, p.now));
    }
  }

  lemma EffectKeepsInv(w: World, worker: string, next: Phase)
    requires Inv(w)
    requires var p := PhaseOf(w, worker);
             && !p.Idle? && p.id in w.table.rows
             && (if w.table.rows[p.id].lane.stream == TaskComment then p.Looked? && !p.found else p.Cleared?)
             && (next == Delivered(p.id, p.now) || next == Faulted(p.id, p.now))
    ensures Inv(Move(w.(remote := Effect(w.remote, w.table.rows[PhaseOf(w, worker).id])), worker, next))
  {
    var p := PhaseOf(w, worker);
    var row := w.table.rows[p.id];
    var w' := Move(w.(remote := Effect(w.remote, row)), worker, next);
    assert WorkerOk(w, worker) && RowOk(w.table, p.id) && RowLaneOk(w, p.id);
    forall id ensures RowLaneOk(w', id) { assert RowLaneOk(w, id); }
    forall lane ensures LaneOk(w', lane) {
      assert LaneOk(w, lane);
      assert Alone(w', lane) ==> Alone(w, lane);
      if lane == row.lane && row.lane.stream == TaskSnapshot {
        ConvergesAgain(w, w', lane, p.id);
      } else if id :| Outstanding(w.table, lane, id) {
        ConvergesAgain(w, w', lane, id);
      }
    }
    forall id ensures SentOk(w', id) {
      assert SentOk(w, id);
      assert KeyRivals(w.table, id, p.id) ==> id == p.id;
    }
    forall m ensures CountOk(w', m) { assert CountOk(w, m); }
    forall v ensures WorkerOk(w', v) {
      assert WorkerOk(w, v);
      if v != worker && !PhaseOf(w, v).Idle? {
        Apart(w, v, worker);
        assert !KeyRivals(w.table, PhaseOf(w, v).id, p.id);
      }
    }
  }

  lemma StepKeepsInv(cfg: Config, w: World, s: Step)
    requires Inv(w)
    ensures Inv(Apply(cfg, w, s))
  {
    if Enabled(cfg, w, s) {
      match s
      case Enqueue(d) => InsertKeepsInv(w, d);
      case RebuildTask(q) => RebuildKeepsInv(w, q);
      case ReclaimRows(now) => ReclaimKeepsInv(cfg, w, now);
      case ClaimRow(worker, now) => ClaimKeepsInv(cfg, w, worker, now);
      case Check(worker) =>
        assert WorkerOk(w, worker);
        var Claimed(id, now) := PhaseOf(w, worker);
        var row := w.table.rows[id];
        if row.lane.stream == TaskSnapshot && Superseded(w.table, row) {
          SentKeepsInv(w, DoCheck(w, worker), worker);
        } else {
          PhaseKeepsInv(w, worker, Cleared(id, now));
        }
      case Lookup(worker, ok) =>
        assert WorkerOk(w, worker);
        var Cleared(id, now) := PhaseOf(w, worker);
        assert CountOk(w, MarkerOf(w.table.rows[id]));
        PhaseKeepsInv(w, worker, if ok then Looked(id, now, MarkerOf(w.table.rows[id]) in w.remote.comments)
            else Faulted(id, now));
      case Send(worker, outcome) => SendKeepsInv(cfg, w, worker, outcome);
      case Confirm(worker) =>
        assert WorkerOk(w, worker);
        SentKeepsInv(w, DoConfirm(w, worker), worker);
      case Reschedule(worker) => RescheduleKeepsInv(cfg, w, worker);
      case Crash(worker) => PhaseKeepsInv(w, worker, Idle);
    }
  }

  lemma {:induction false} RunKeepsInv(cfg: Config, w: World, steps: seq<Step>)
    requires Inv(w)
    ensures Inv(Run(cfg, w, steps))
    decreases |steps|
  {
    if steps != [] {
      StepKeepsInv(cfg, w, steps[0]);
      RunKeepsInv(cfg, Apply(cfg, w, steps[0]), steps[1..]);
    }
  }
}
