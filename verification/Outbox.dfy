/**
 The projection_outbox and projection_cursors tables and the statements over them
 (db/queries.py, db/schema.sql).

 Every statement is a function on the value of the tables; OutboxDb is the database that the
 projection worker updates in place, and each of its methods is one SQL statement or transaction.
 */
module Outbox {
  import opened Common
  import opened Idempotency

  datatype Lane = Lane(taskId: string, stream: Stream, target: string)

  datatype Payload =
    | Snapshot(body: SnapshotPayload)
    | Comment(text: string)
    | Labels(desired: set<Label>)
    | Alert(kind: AlertKind, state: TaskState)

  datatype Claim = Claim(worker: string, at: int)

  // What a producer hands to insert_outbox.
  datatype Draft = Draft(lane: Lane, origin: string, payload: Payload, rev: nat, key: Key, due: int)

  datatype Row = Row(lane: Lane, origin: string, payload: Payload, rev: nat, key: Key,
                     claim: Option<Claim>, attempts: nat, due: int, sent: Option<int>)
  {
    predicate InFlight() { sent.None? && claim.Some? }
  }

  datatype Cursor = Cursor(rev: nat, outboxId: nat)

  datatype Table = Table(rows: map<nat, Row>, nextId: nat, cursors: map<Lane, Cursor>)

  datatype SysEvent =
    | StaleClaimReclaimed(count: nat)
    | ProjectionSent(id: nat)
    | SendFailed(id: nat, attempt: nat)
    | InfraFatal(id: nat, attempt: nat)

  function EmptyTable(): Table {
    Table(map[], 1, map[])
  }

  // The producers build every key from the row they insert.
  predicate KeyFits(lane: Lane, origin: string, payload: Payload, rev: nat, key: Key) {
    match lane.stream
    case TaskSnapshot =>
      payload.Snapshot? && payload.body.rev == rev && key == SnapshotKey(lane.taskId, lane.target, rev, payload.body)
    case TaskComment =>
      payload.Comment? && key.CommentKey? && key.taskId == lane.taskId && key.target == lane.target
          && key.origin == origin
    case TaskLabelSync =>
      payload.Labels? && key == LabelKey(lane.taskId, lane.target, rev, payload.desired)
    case DiscordAlert =>
      payload.Alert? && key == AlertKey(lane.taskId, lane.target, rev, payload.kind)
  }

  predicate DraftFits(d: Draft) {
    KeyFits(d.lane, d.origin, d.payload, d.rev, d.key)
  }

  // UNIQUE (stream, target, idempotency_key)
  function Conflicting(t: Table, d: Draft): set<nat> {
    set id | id in t.rows && t.rows[id].lane.stream == d.lane.stream && t.rows[id].lane.target == d.lane.target
        && t.rows[id].key == d.key
  }

  function FreshRow(d: Draft): Row {
    Row(d.lane, d.origin, d.payload, d.rev, d.key, None, 0, d.due, None)
  }

  // INSERT ... ON CONFLICT(stream, target, idempotency_key) DO NOTHING
  function Insert(t: Table, d: Draft): Table {
    if Conflicting(t, d) == {} then t.(rows := t.rows[t.nextId := FreshRow(d)], nextId := t.nextId + 1) else t
  }

  predicate LaneBusy(t: Table, lane: Lane) {
    exists id :: id in t.rows && t.rows[id].lane == lane && t.rows[id].InFlight()
  }

  predicate Eligible(t: Table, id: nat, now: int) {
    && id in t.rows
    && t.rows[id].sent.None?
    && t.rows[id].due <= now
    && t.rows[id].claim.None?
    && !LaneBusy(t, t.rows[id].lane)
  }

  // The row is unsent, unclaimed and due, and of its lane no unsent row is claimed.
  predicate Claimable(rows: map<nat, Row>, id: nat, now: int) {
    && id in rows && rows[id].sent == None && rows[id].claim == None && rows[id].due <= now
    && forall j :: j in rows && rows[j].lane == rows[id].lane && rows[j].sent == None ==> rows[j].claim == None
  }

  lemma EligibleMeaning(t: Table, id: nat, now: int)
    ensures Eligible(t, id, now) <==> Claimable(t.rows, id, now)
    ensures Eligible(t, id, now) ==> t.rows[id].due <= now
  {
    if id in t.rows && LaneBusy(t, t.rows[id].lane) {
      var j :| j in t.rows && t.rows[j].lane == t.rows[id].lane && t.rows[j].InFlight();
    } else if id in t.rows {
      assert forall j :: j in t.rows && t.rows[j].lane == t.rows[id].lane ==> !t.rows[j].InFlight();
    }
  }

  function Candidates(t: Table, now: int): set<nat> {
    set id | id in t.rows && Eligible(t, id, now)
  }

  function WithRow(t: Table, id: nat, row: Row): Table {
    t.(rows := t.rows[id := row])
  }

  // claim_next_outbox
  ghost function ClaimNext(t: Table, worker: string, now: int): Table {
    var c := Candidates(t, now);
    if c == {} then t else WithRow(t, Least(c), t.rows[Least(c)].(claim := Some(Claim(worker, now))))
  }

  predicate Stale(row: Row, cutoff: int) {
    row.InFlight() && row.claim.value.at <= cutoff
  }

  function StaleIds(t: Table, cutoff: int): set<nat> {
    set id | id in t.rows && Stale(t.rows[id], cutoff)
  }

  // reclaim_stale_outbox
  function ReclaimStale(t: Table, cutoff: int): Table {
    t.(rows := map id | id in t.rows :: if Stale(t.rows[id], cutoff) then t.rows[id].(claim := None) else t.rows[id])
  }

  // mark_outbox_sent
  function MarkSent(t: Table, id: nat, at: int): Table {
    if id in t.rows then WithRow(t, id, t.rows[id].(sent := Some(at))) else t
  }

  // reschedule_outbox
  function RescheduleRow(t: Table, id: nat, due: int, attempts: nat): Table {
    if id in t.rows then WithRow(t, id, t.rows[id].(due := due, attempts := attempts, claim := None)) else t
  }

  // upsert_cursor
  function UpsertCursor(t: Table, lane: Lane, rev: nat, id: nat): Table {
    t.(cursors := t.cursors[lane := Cursor(rev, id)])
  }

  // get_cursor, with -1 for a lane that has none
  function CursorRev(t: Table, lane: Lane): int {
    if lane in t.cursors then t.cursors[lane].rev else -1
  }

  // _desired_labels, which the router and the rebuild share
  function DesiredLabels(state: TaskState, critical: bool): set<Label> {
    (if critical then {CriticalLabel} else {})
    + (if state == HumanReviewRequired then {HumanReviewLabel} else {})
    + (if state == Cancelled then {CancelledLabel} else {})
  }

  // source_issue_id or task_id: an absent or empty issue falls back to the task
  function IssueTarget(taskId: string, sourceIssue: Option<string>): string {
    if sourceIssue.Some? && sourceIssue.value != "" then sourceIssue.value else taskId
  }

  function TaskUrl(baseUrl: string, taskId: string, sourceIssue: Option<string>): string {
    if sourceIssue.Some? && sourceIssue.value != "" then baseUrl + "/issues/" + sourceIssue.value
    else baseUrl + "/tasks/" + taskId
  }

  // What every reachable table satisfies.
  ghost predicate TableOk(t: Table) {
    && (forall id :: RowOk(t, id))
    && (forall i, j :: KeyRivals(t, i, j) ==> i == j)
    && LanesExclusive(t)
  }

  predicate RowOk(t: Table, id: nat) {
    id in t.rows ==>
      var r := t.rows[id];
      id < t.nextId && KeyFits(r.lane, r.origin, r.payload, r.rev, r.key)
  }

  // Two rows that the UNIQUE constraint would not admit together.
  predicate KeyRivals(t: Table, i: nat, j: nat) {
    i in t.rows && j in t.rows && SameKey(t.rows[i], t.rows[j])
  }

  predicate SameKey(a: Row, b: Row) {
    a.lane.stream == b.lane.stream && a.lane.target == b.lane.target && a.key == b.key
  }

  // At most one unsent claimed row per lane.
  ghost predicate LanesExclusive(t: Table) {
    forall i, j :: LaneRivals(t, i, j) ==> i == j
  }

  predicate LaneRivals(t: Table, i: nat, j: nat) {
    i in t.rows && j in t.rows && t.rows[i].InFlight() && t.rows[j].InFlight() && t.rows[i].lane == t.rows[j].lane
  }

  lemma InsertKeepsTableOk(t: Table, d: Draft)
    requires TableOk(t) && DraftFits(d)
    ensures TableOk(Insert(t, d))
    ensures forall id :: id in t.rows ==> id in Insert(t, d).rows && Insert(t, d).rows[id] == t.rows[id]
    ensures exists id :: Conflicting(Insert(t, d), d) == {id}
  {
    var t' := Insert(t, d);
    if Conflicting(t, d) == {} {
      assert forall id :: id in t.rows ==> RowOk(t, id);
      forall id | id in t.rows ensures !SameKey(t.rows[id], FreshRow(d)) {
        assert id !in Conflicting(t, d);
      }
      forall i, j | KeyRivals(t', i, j) ensures i == j {
        if i in t.rows && j in t.rows { assert KeyRivals(t, i, j); }
      }
      forall i, j | LaneRivals(t', i, j) ensures i == j {
        assert LaneRivals(t, i, j);
      }
      forall id ensures RowOk(t', id) {
        assert RowOk(t, id);
      }
      assert Conflicting(t', d) == {t.nextId};
    } else {
      var id :| id in Conflicting(t, d);
      forall j | j in Conflicting(t, d) ensures j == id {
        assert KeyRivals(t, id, j);
      }
      assert Conflicting(t', d) == {id};
    }
  }

  class OutboxDb {
    var rows: map<nat, Row>
    var nextId: nat
    var cursors: map<Lane, Cursor>
    var events: seq<SysEvent>

    function Contents(): Table
      reads this
    {
      Table(rows, nextId, cursors)
    }

    constructor ()
      ensures Contents() == EmptyTable() && events == []
    {
      rows, nextId, cursors, events := map[], 1, map[], [];
    }

    method InsertOutbox(d: Draft) returns (id: nat)
      modifies this`rows, this`nextId
      ensures Contents() == Insert(old(Contents()), d)
      ensures id in rows && rows[id].key == d.key && rows[id].lane.stream == d.lane.stream
          && rows[id].lane.target == d.lane.target
      ensures (exists j :: j in old(rows) && SameKey(old(rows)[j], FreshRow(d))) ==>
                rows == old(rows) && nextId == old(nextId)
      ensures (forall j :: j in old(rows) ==> !SameKey(old(rows)[j], FreshRow(d))) ==>
                && id == old(nextId) && nextId == id + 1
                && rows == old(rows)[id := Row(d.lane, d.origin, d.payload, d.rev, d.key, None, 0, d.due, None)]
    {
      assert forall j :: j in rows && SameKey(rows[j], FreshRow(d)) ==> j in Conflicting(Contents(), d);
      var clash := Conflicting(Contents(), d);
      if clash == {} {
        id := nextId;
        rows := rows[nextId := FreshRow(d)];
        nextId := nextId + 1;
      } else {
        id :| id in clash;
      }
    }

    method ClaimNextOutbox(worker: string, now: int) returns (claimed: Option<nat>)
      modifies this`rows
      ensures Contents() == ClaimNext(old(Contents()), worker, now)
      ensures var c := Candidates(old(Contents()), now); claimed == if c == {} then None else Some(Least(c))
      ensures claimed.None? ==> rows == old(rows)
      ensures claimed.Some? ==>
                && Claimable(old(rows), claimed.value, now)
                && old(rows)[claimed.value].due <= now
                && rows == old(rows)[claimed.value := old(rows)[claimed.value].(claim := Some(Claim(worker, now)))]
      ensures forall id :: Claimable(old(rows), id, now) ==> claimed.Some? && claimed.value <= id
    {
      var c := Candidates(Contents(), now);
      forall id: nat ensures id in c <==> Claimable(rows, id, now) { EligibleMeaning(Contents(), id, now); }
      if c == {} {
        return None;
      }
      ghost var least := Least(c);
      var id :| id in c && forall j :: j in c ==> id <= j;
      assert id == least;
      rows := rows[id := rows[id].(claim := Some(Claim(worker, now)))];
      claimed := Some(id);
    }

    method ReclaimStaleOutbox(now: int, staleAfter: int) returns (count: nat)
      modifies this`rows
      ensures Contents() == ReclaimStale(old(Contents()), now - staleAfter)
      ensures rows.Keys == old(rows.Keys)
      ensures forall id :: id in rows ==>
                var row := old(rows)[id];
                if row.sent == None && row.claim.Some? && row.claim.value.at + staleAfter <= now then
                  rows[id] == row.(claim := None)
                else rows[id] == row
      ensures count == |StaleIds(old(Contents()), now - staleAfter)|
      ensures count == |set id | id in rows && rows[id] != old(rows)[id]|
    {
      var cutoff := now - staleAfter;
      count := |StaleIds(Contents(), cutoff)|;
      rows := map id | id in rows :: if Stale(rows[id], cutoff) then rows[id].(claim := None) else rows[id];
      assert StaleIds(old(Contents()), cutoff) == set id | id in rows && rows[id] != old(rows)[id];
    }

    method MarkOutboxSent(id: nat, at: int)
      modifies this`rows
      ensures Contents() == MarkSent(old(Contents()), id, at)
      ensures rows == if id in old(rows) then old(rows)[id := old(rows)[id].(sent := Some(at))] else old(rows)
    {
      if id in rows {
        rows := rows[id := rows[id].(sent := Some(at))];
      }
    }

    method RescheduleOutbox(id: nat, due: int, attempts: nat)
      modifies this`rows
      ensures Contents() == RescheduleRow(old(Contents()), id, due, attempts)
      ensures rows.Keys == old(rows.Keys)
      ensures forall j :: j in rows && j != id ==> rows[j] == old(rows)[j]
      ensures id in rows ==>
                rows[id] == old(rows)[id].(due := due, attempts := attempts, claim := None)
    {
      if id in rows {
        rows := rows[id := rows[id].(due := due, attempts := attempts, claim := None)];
      }
    }

    method UpsertProjectionCursor(lane: Lane, rev: nat, id: nat)
      modifies this`cursors
      ensures Contents() == UpsertCursor(old(Contents()), lane, rev, id)
      ensures cursors == old(cursors)[lane := Cursor(rev, id)]
    {
      cursors := cursors[lane := Cursor(rev, id)];
    }

    method AppendSystemEvent(e: SysEvent)
      modifies this`events
      ensures events == old(events) + [e]
    {
      events := events + [e];
    }
  }
}
